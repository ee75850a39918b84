/** The error boundary: a component whose state records whether a child
    threw, what it threw and how many times, and which renders a fallback
    screen instead of its children while an error is held. The build
    environment is a field; the console lines, the reports to the
    monitoring service, the page reloads and the navigation are recorded. */
module ErrorBoundary {
  import opened Common

  /** `this.state`; a thrown error and its component stack are kept as
      their text. */
  datatype BoundaryState = BoundaryState(hasError: bool, error: Option<string>, errorInfo: Option<string>, errorCount: nat)

  /** What `render` returns: the children, or the fallback screen, which
      shows the error's details in development when there is an error. */
  datatype View = Children | Fallback(showsDetails: bool)

  /** The state the constructor sets. */
  const Initial := BoundaryState(false, None, None, 0)

  /** `getDerivedStateFromError`: the update that switches to the fallback. */
  function DerivedFromError(s: BoundaryState): (t: BoundaryState)
    ensures t.hasError
    ensures t.error == s.error && t.errorInfo == s.errorInfo && t.errorCount == s.errorCount
  {
    s.(hasError := true)
  }

  /** The update of `componentDidCatch`. The later test of `errorCount > 3`
      reads the state from before the update and sets `hasError`, which
      is already true, so it changes nothing. */
  function Caught(s: BoundaryState, error: string, info: string): (t: BoundaryState)
    ensures t.hasError && t.error == Some(error) && t.errorInfo == Some(info)
    ensures t.errorCount == s.errorCount + 1
  {
    var t := BoundaryState(true, Some(error), Some(info), s.errorCount + 1);
    if s.errorCount > 3 then t.(hasError := true) else t
  }

  /** The update of `handleReload` and `handleGoHome`. */
  function Cleared(s: BoundaryState): (t: BoundaryState)
    ensures !t.hasError && t.error.None? && t.errorInfo.None?
    ensures t.errorCount == s.errorCount
  {
    s.(hasError := false, error := None, errorInfo := None)
  }

  /** `render`: the fallback exactly when an error is held. */
  function Render(s: BoundaryState, development: bool): (v: View)
    ensures v.Fallback? <==> s.hasError
    ensures v.Fallback? ==> (v.showsDetails <==> development && s.error.Some?)
  {
    if s.hasError then Fallback(development && s.error.Some?) else Children
  }

  /** A fresh boundary renders its children; after a catch it renders the
      fallback; after a reload or a trip home it renders the children
      again while remembering how many errors there were. */
  lemma RecoverySpec(s: BoundaryState, error: string, info: string, development: bool)
    ensures Render(Initial, development) == Children && Initial.errorCount == 0
    ensures Render(Caught(s, error, info), development) == Fallback(development)
    ensures Render(DerivedFromError(s), development).Fallback?
    ensures Render(Cleared(Caught(s, error, info)), development) == Children
    ensures Cleared(Caught(s, error, info)).errorCount == s.errorCount + 1
    ensures Cleared(Cleared(s)) == Cleared(s)
  {
  }

  /** The count is the number of catches: it never goes down, and `n`
      catches with reloads in between count `n`. */
  function CatchAndReload(s: BoundaryState, errors: seq<string>): (t: BoundaryState)
    ensures !t.hasError || (errors == [] && t == s)
    decreases |errors|
  {
    if errors == [] then s else CatchAndReload(Cleared(Caught(s, errors[0], "")), errors[1..])
  }

  lemma {:induction false} CatchAndReloadCounts(s: BoundaryState, errors: seq<string>)
    ensures CatchAndReload(s, errors).errorCount == s.errorCount + |errors|
    decreases |errors|
  {
    if errors != [] {
      CatchAndReloadCounts(Cleared(Caught(s, errors[0], "")), errors[1..]);
    }
  }

  /** A line on the console or a report sent to the monitoring service. */
  datatype LogEntry = ConsoleError(error: string, info: string) | ServiceReport(error: string, info: string)

  class Boundary {
    /** `process.env.NODE_ENV`. */
    const env: string
    var state: BoundaryState
    var logged: seq<LogEntry>
    /** How many times `window.location.reload` ran. */
    var reloads: nat
    /** The `href` set by `handleGoHome`, if any. */
    var location: Option<string>

    constructor(nodeEnv: string)
      ensures env == nodeEnv && state == Initial && logged == [] && reloads == 0 && location.None?
    {
      env := nodeEnv;
      state := Initial;
      logged := [];
      reloads := 0;
      location := None;
    }

    method GetDerivedStateFromError()
      modifies this
      ensures state == DerivedFromError(old(state))
      ensures logged == old(logged) && reloads == old(reloads) && location == old(location)
    {
      state := state.(hasError := true);
    }

    /** `componentDidCatch`: a console line in development, a report in
        production, and the state update. */
    method ComponentDidCatch(error: string, info: string)
      modifies this
      ensures state == Caught(old(state), error, info)
      ensures logged == old(logged)
        + (if env == "development" then [ConsoleError(error, info)] else [])
        + (if env == "production" then [ServiceReport(error, info)] else [])
      ensures reloads == old(reloads) && location == old(location)
    {
      if env == "development" {
        logged := logged + [ConsoleError(error, info)];
      }
      if env == "production" {
        logged := logged + [ServiceReport(error, info)];
      }
      var previous := state.errorCount;
      state := BoundaryState(true, Some(error), Some(info), state.errorCount + 1);
      if previous > 3 {
        state := state.(hasError := true);
      }
    }

    method HandleReload()
      modifies this
      ensures state == Cleared(old(state))
      ensures reloads == old(reloads) + 1
      ensures logged == old(logged) && location == old(location)
    {
      state := BoundaryState(false, None, None, state.errorCount);
      reloads := reloads + 1;
    }

    method HandleGoHome()
      modifies this
      ensures state == Cleared(old(state))
      ensures location == Some("/")
      ensures logged == old(logged) && reloads == old(reloads)
    {
      state := BoundaryState(false, None, None, state.errorCount);
      location := Some("/");
    }

    function Shown(): View
      reads this
    {
      Render(state, env == "development")
    }
  }
}
