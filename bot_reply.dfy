/** The bot reply bubble: blank-line clean-up, splitting a reply into plain
    text and links, the thumbs-up/down toggle, the file-check animation and
    the loading dots. */
module BotReply {
  import opened Common
  import opened Patterns

  // ---------------------------------------------------------------------------
  // Clean-up of blank lines: `text.replace(/\n{3,}/g, '\n\n')`

  /** The number of newlines `s` starts with. */
  function NewlineRun(s: string): (k: nat)
    ensures k <= |s|
    ensures forall i :: 0 <= i < k ==> s[i] == '\n'
    ensures k < |s| ==> s[k] != '\n'
    decreases |s|
  {
    if s != [] && s[0] == '\n' then 1 + NewlineRun(s[1..]) else 0
  }

  /** Replaces every maximal run of three or more newlines, left to right,
      by exactly two. */
  function Collapse(s: string): (r: string)
    ensures |r| <= |s|
    ensures s != [] && s[0] != '\n' ==> r != [] && r[0] == s[0]
    decreases |s|
  {
    if s == [] then []
    else if s[0] != '\n' then [s[0]] + Collapse(s[1..])
    else
      var k := NewlineRun(s);
      (if k >= 3 then "\n\n" else s[..k]) + Collapse(s[k..])
  }

  /** `cleanupText`: a missing or empty text gives "". */
  function CleanupText(text: Option<string>): (r: string)
    ensures text.None? || text.value == "" ==> r == ""
  {
    if text.None? || text.value == "" then "" else Collapse(text.value)
  }

  /** No three newlines in a row. */
  predicate NoTripleNewline(s: string) {
    forall i :: 0 <= i < |s| - 2 ==> !(s[i] == '\n' && s[i + 1] == '\n' && s[i + 2] == '\n')
  }

  /** The characters other than newlines, in order. */
  function NonNewlines(s: string): string
    decreases |s|
  {
    if s == [] then [] else (if s[0] == '\n' then [] else [s[0]]) + NonNewlines(s[1..])
  }

  lemma {:induction false} NonNewlinesAppend(a: string, b: string)
    ensures NonNewlines(a + b) == NonNewlines(a) + NonNewlines(b)
    decreases |a|
  {
    if a != [] {
      assert (a + b)[0] == a[0];
      assert (a + b)[1..] == a[1..] + b;
      NonNewlinesAppend(a[1..], b);
    } else {
      assert a + b == b;
    }
  }

  lemma {:induction false} NonNewlinesOfNewlines(s: string)
    requires forall i :: 0 <= i < |s| ==> s[i] == '\n'
    ensures NonNewlines(s) == []
    decreases |s|
  {
    if s != [] { NonNewlinesOfNewlines(s[1..]); }
  }

  /** The clean-up leaves no run of three newlines. */
  lemma {:induction false} CollapseNoTriple(s: string)
    ensures NoTripleNewline(Collapse(s))
    decreases |s|
  {
    if s == [] {
    } else if s[0] != '\n' {
      CollapseNoTriple(s[1..]);
      var r := Collapse(s);
      assert r == [s[0]] + Collapse(s[1..]);
      forall i | 0 <= i < |r| - 2 ensures !(r[i] == '\n' && r[i + 1] == '\n' && r[i + 2] == '\n') {
        if i > 0 { assert r[i] == Collapse(s[1..])[i - 1]; }
      }
    } else {
      var k := NewlineRun(s);
      var rest := s[k..];
      CollapseNoTriple(rest);
      var head: string := if k >= 3 then "\n\n" else s[..k];
      var r := Collapse(s);
      assert r == head + Collapse(rest);
      assert |head| <= 2;
      forall i | 0 <= i < |r| - 2 ensures !(r[i] == '\n' && r[i + 1] == '\n' && r[i + 2] == '\n') {
        if i >= |head| {
          assert r[i] == Collapse(rest)[i - |head|];
          assert r[i + 1] == Collapse(rest)[i + 1 - |head|];
          assert r[i + 2] == Collapse(rest)[i + 2 - |head|];
        } else {
          // the window reaches the first character after the run
          assert |Collapse(rest)| > 0;
          assert rest != [] && rest[0] != '\n';
          assert r[|head|] == Collapse(rest)[0] == rest[0];
        }
      }
    }
  }

  /** The clean-up keeps every other character, in order. */
  lemma {:induction false} CollapseKeepsText(s: string)
    ensures NonNewlines(Collapse(s)) == NonNewlines(s)
    decreases |s|
  {
    if s == [] {
    } else if s[0] != '\n' {
      CollapseKeepsText(s[1..]);
      NonNewlinesAppend([s[0]], Collapse(s[1..]));
    } else {
      var k := NewlineRun(s);
      var head: string := if k >= 3 then "\n\n" else s[..k];
      CollapseKeepsText(s[k..]);
      NonNewlinesAppend(head, Collapse(s[k..]));
      NonNewlinesOfNewlines(head);
      NonNewlinesOfNewlines(s[..k]);
      assert s == s[..k] + s[k..];
      NonNewlinesAppend(s[..k], s[k..]);
    }
  }

  /** Text without a run of three newlines is left alone. */
  lemma {:induction false} CollapseFixesClean(s: string)
    requires NoTripleNewline(s)
    ensures Collapse(s) == s
    decreases |s|
  {
    if s == [] {
    } else if s[0] != '\n' {
      CollapseFixesClean(s[1..]);
    } else {
      var k := NewlineRun(s);
      if |s| >= 3 {
        assert !(s[0] == '\n' && s[1] == '\n' && s[2] == '\n');
      }
      assert k < 3;
      CollapseFixesClean(s[k..]);
      assert s == s[..k] + s[k..];
    }
  }

  /** Cleaning twice is cleaning once. */
  lemma CleanupIdempotent(text: Option<string>)
    ensures CleanupText(Some(CleanupText(text))) == CleanupText(text)
  {
    var r := CleanupText(text);
    if r != "" {
      CollapseNoTriple(text.value);
      CollapseFixesClean(r);
    }
  }

  // ---------------------------------------------------------------------------
  // Links: `cleanedText.split(/(https?:\/\/[^\s<>"{}|\\^`\[\]]+)/g)`

  /** A URL match starts somewhere in `s`: `s.match(urlRegex) != null`. */
  predicate ContainsUrl(s: string)
    decreases |s|
  {
    s != [] && (UrlMatch(s) > 0 || ContainsUrl(s[1..]))
  }

  /** A match found on a prefix is also found on the whole string. */
  lemma UrlMatchOfPrefix(x: string, y: string)
    requires |y| <= |x| && x[..|y|] == y && UrlMatch(y) > 0
    ensures UrlMatch(x) > 0
  {
    var k := SchemeLength(y);
    assert |y| > k;
    assert x[..k + 1] == y[..k + 1];
    assert y[..7] == x[..7];
    if |y| >= 8 { assert y[..8] == x[..8]; }
    assert SchemeLength(x) == k;
    assert y[k..][0] == x[k..][0];
  }

  /** No URL match starts at any of the first `m` positions of `s`. */
  predicate NoMatchBefore(s: string, m: nat)
    requires m <= |s|
  {
    forall j :: 0 <= j < m ==> UrlMatch(s[j..]) == 0
  }

  lemma {:induction false} NoMatchMeansNoUrl(s: string)
    requires NoMatchBefore(s, |s|)
    ensures !ContainsUrl(s)
    decreases |s|
  {
    if s != [] {
      assert UrlMatch(s[0..]) == 0 && s[0..] == s;
      forall j | 0 <= j < |s| - 1 ensures UrlMatch(s[1..][j..]) == 0 {
        assert s[1..][j..] == s[j + 1..];
      }
      NoMatchMeansNoUrl(s[1..]);
    }
  }

  lemma {:induction false} UrlContainsUrl(s: string)
    requires UrlMatch(s) > 0
    ensures ContainsUrl(s)
  {
  }

  /** Text read before the next match holds no URL. */
  lemma AccHasNoUrl(acc: string, s: string)
    requires forall j :: 0 <= j < |acc| ==> UrlMatch((acc + s)[j..]) == 0
    ensures !ContainsUrl(acc)
  {
    forall j | 0 <= j < |acc| ensures UrlMatch(acc[j..]) == 0 {
      PrefixHasNoMatch(acc, s, j);
    }
    NoMatchMeansNoUrl(acc);
  }

  lemma PrefixHasNoMatch(acc: string, s: string, j: nat)
    requires j < |acc| && UrlMatch((acc + s)[j..]) == 0
    ensures UrlMatch(acc[j..]) == 0
  {
    assert (acc + s)[j..][..|acc[j..]|] == acc[j..];
    if UrlMatch(acc[j..]) > 0 {
      UrlMatchOfPrefix((acc + s)[j..], acc[j..]);
    }
  }

  /** The matched text is itself exactly one match. */
  lemma MatchIsWholeUrl(s: string)
    requires UrlMatch(s) > 0
    ensures UrlMatch(s[..UrlMatch(s)]) == UrlMatch(s)
  {
    var n := UrlMatch(s);
    var u := s[..n];
    var k := SchemeLength(s);
    assert u[..k] == s[..k];
    assert u[..7] == s[..7];
    if |u| >= 8 { assert u[..8] == s[..8]; }
    assert SchemeLength(u) == k;
    assert u[k..] == s[k..][..n - k];
    UrlRunOfPrefix(s[k..], n - k);
  }

  /** Odd pieces are exactly one URL match each; even pieces contain none. */
  predicate WellSplit(parts: seq<string>) {
    (forall i :: 0 <= i < |parts| && i % 2 == 1 ==> UrlMatch(parts[i]) == |parts[i]| > 0)
    && (forall i :: 0 <= i < |parts| && i % 2 == 0 ==> !ContainsUrl(parts[i]))
  }

  lemma PrependPair(acc: string, u: string, rest: seq<string>)
    requires !ContainsUrl(acc) && UrlMatch(u) == |u| > 0 && WellSplit(rest)
    ensures WellSplit([acc, u] + rest)
  {
    var parts := [acc, u] + rest;
    forall i | 0 <= i < |parts| && i % 2 == 1 ensures UrlMatch(parts[i]) == |parts[i]| > 0 {
      if i > 1 { assert parts[i] == rest[i - 2]; }
    }
    forall i | 0 <= i < |parts| && i % 2 == 0 ensures !ContainsUrl(parts[i]) {
      if i > 1 { assert parts[i] == rest[i - 2]; }
    }
  }

  /** Moving one non-matching character into the pending text keeps the
      pending text free of matches. */
  lemma ShiftPending(s: string, acc: string)
    requires s != [] && UrlMatch(s) == 0
    requires forall j :: 0 <= j < |acc| ==> UrlMatch((acc + s)[j..]) == 0
    ensures forall j :: 0 <= j < |acc| + 1 ==> UrlMatch(((acc + [s[0]]) + s[1..])[j..]) == 0
  {
    assert (acc + [s[0]]) + s[1..] == acc + s;
    assert (acc + s)[|acc|..] == s;
  }

  /** The odd pieces are exactly one URL match each and the even pieces
      contain none. */
  lemma {:induction false} SplitFromWell(s: string, acc: string)
    requires forall j :: 0 <= j < |acc| ==> UrlMatch((acc + s)[j..]) == 0
    ensures WellSplit(SplitFrom(UrlPattern, s, acc))
    decreases |s|
  {
    if s == [] {
      assert acc + s == acc;
      AccHasNoUrl(acc, s);
    } else if UrlMatch(s) > 0 {
      var n := UrlMatch(s);
      SplitFromWell(s[n..], "");
      AccHasNoUrl(acc, s);
      MatchIsWholeUrl(s);
      PrependPair(acc, s[..n], SplitFrom(UrlPattern, s[n..], ""));
    } else {
      ShiftPending(s, acc);
      SplitFromWell(s[1..], acc + [s[0]]);
    }
  }

  /** A rendered piece of a reply. */
  datatype Piece = Plain(text: string) | Link(href: string)

  function RenderParts(parts: seq<string>): (r: seq<Piece>)
    ensures |r| == |parts|
    ensures forall i :: 0 <= i < |r| ==> (r[i].Link? <==> ContainsUrl(parts[i]))
    ensures forall i :: 0 <= i < |r| ==> (if r[i].Link? then r[i].href else r[i].text) == parts[i]
  {
    seq(|parts|, i requires 0 <= i < |parts| => if ContainsUrl(parts[i]) then Link(parts[i]) else Plain(parts[i]))
  }

  /** `renderMessageWithLinks`: nothing for a missing or empty text, else the
      pieces of the cleaned text, a piece being a link when it matches the
      URL pattern. */
  function RenderMessage(text: Option<string>): (r: Option<seq<Piece>>)
    ensures r.None? <==> text.None? || text.value == ""
  {
    if text.None? || text.value == "" then None
    else Some(RenderParts(SplitKeep(UrlPattern, CleanupText(text))))
  }

  function PieceText(p: Piece): string {
    if p.Link? then p.href else p.text
  }

  function PiecesText(ps: seq<Piece>): string
    decreases |ps|
  {
    if ps == [] then "" else PieceText(ps[0]) + PiecesText(ps[1..])
  }

  lemma {:induction false} PiecesTextOfParts(parts: seq<string>)
    ensures PiecesText(RenderParts(parts)) == Concat(parts)
    decreases |parts|
  {
    if parts != [] {
      assert RenderParts(parts)[1..] == RenderParts(parts[1..]);
      PiecesTextOfParts(parts[1..]);
    }
  }

  /** The rendered pieces spell out the cleaned text, and the links are
      exactly the odd pieces of the split, each one whole URL. */
  lemma RenderMessageSpec(text: string)
    requires text != ""
    ensures var r := RenderMessage(Some(text)); var parts := SplitKeep(UrlPattern, CleanupText(Some(text)));
      r.Some? && PiecesText(r.value) == CleanupText(Some(text))
      && (forall i :: 0 <= i < |r.value| ==> (r.value[i].Link? <==> i % 2 == 1))
      && (forall i :: 0 <= i < |r.value| && i % 2 == 1 ==> UrlMatch(parts[i]) == |parts[i]| > 0)
  {
    var c := CleanupText(Some(text));
    SplitKeepConcat(UrlPattern, c);
    SplitFromWell(c, "");
    assert WellSplit(SplitKeep(UrlPattern, c));
    var parts := SplitKeep(UrlPattern, c);
    PiecesTextOfParts(parts);
    forall i | 0 <= i < |parts| && i % 2 == 1 ensures ContainsUrl(parts[i]) {
      UrlContainsUrl(parts[i]);
    }
  }

  // ---------------------------------------------------------------------------
  // File-check animation and loading dots

  datatype Animation = Checking | Success | Fail

  const PageCheckOk := "File page limit check succeeded."
  const SizeExceeded := "File size limit exceeded."
  const NetworkError := "Network Error. Please try again later."

  /** The state after the effect's one-second timer fires for `fileStatus`. */
  function AnimationStep(a: Animation, fileStatus: string): (r: Animation)
    ensures a != Checking ==> r == a
    ensures a == Checking ==> (r == Success <==> fileStatus == PageCheckOk)
    ensures a == Checking ==> (r == Fail <==> fileStatus == SizeExceeded || fileStatus == NetworkError)
  {
    if a == Checking then
      if fileStatus == PageCheckOk then Success
      else if fileStatus == SizeExceeded || fileStatus == NetworkError then Fail
      else Checking
    else a
  }

  function NextDots(prev: string): string {
    if |prev| >= 3 then "" else prev + "."
  }

  function Ticks(d: string, n: nat): string
    decreases n
  {
    if n == 0 then d else Ticks(NextDots(d), n - 1)
  }

  /** From "" the dots run "", ".", "..", "..." and back, period four, never
      longer than three. */
  lemma {:induction false} DotsCycle(n: nat)
    ensures Ticks("", n) == seq(n % 4, i => '.')
    ensures |Ticks("", n)| <= 3
    decreases n
  {
    if n > 0 {
      DotsCycle(n - 1);
      TicksLast("", n - 1);
      var prev := Ticks("", n - 1);
      assert prev == seq((n - 1) % 4, i => '.');
      if (n - 1) % 4 == 3 {
        assert NextDots(prev) == seq(n % 4, i => '.');
      } else {
        assert NextDots(prev) == prev + ".";
        assert prev + "." == seq(n % 4, i => '.');
      }
    }
  }

  lemma {:induction false} TicksLast(d: string, n: nat)
    ensures Ticks(d, n + 1) == NextDots(Ticks(d, n))
    decreases n
  {
    if n > 0 { TicksLast(NextDots(d), n - 1); }
  }

  // ---------------------------------------------------------------------------
  // The component state

  datatype Feedback = Positive | Negative

  /** A feedback submission handed to the parent's callback: the message
      id, the session id and message props (None when not given), the new
      feedback and the time of the click. */
  datatype Submission = Submission(messageId: string, sessionId: Option<string>, feedback: Option<Feedback>,
                                   message: Option<string>, timestamp: string)

  class ReplyBubble {
    var feedback: Option<Feedback>
    var submitting: bool
    var animation: Animation
    var dots: string
    /** The submissions passed to the feedback callback, oldest first. */
    var submissions: seq<Submission>

    constructor()
      ensures feedback.None? && !submitting && animation == Checking && dots == "" && submissions == []
    {
      feedback := None;
      submitting := false;
      animation := Checking;
      dots := "";
      submissions := [];
    }

    /** A thumbs click. `messageId` is `None` when missing or empty,
        `sessionId` and `message` are the props, `now` the ISO time of the
        click, `hasCallback` whether a callback was given, and
        `callbackThrows` whether awaiting it throws (which leaves the flag
        set). */
    method HandleFeedback(kind: Feedback, messageId: Option<string>, sessionId: Option<string>, message: Option<string>,
                          now: string, hasCallback: bool, callbackThrows: bool)
      returns (threw: bool)
      modifies this
      ensures old(submitting) || messageId.None? ==>
        feedback == old(feedback) && submitting == old(submitting) && submissions == old(submissions) && !threw
      ensures !old(submitting) && messageId.Some? ==>
        feedback == (if old(feedback) == Some(kind) then None else Some(kind))
        && submissions == old(submissions) + (if hasCallback then [Submission(messageId.value, sessionId, feedback, message, now)] else [])
        && threw == (hasCallback && callbackThrows)
        && submitting == threw
      ensures animation == old(animation) && dots == old(dots)
    {
      threw := false;
      if submitting || messageId.None? {
        return;
      }
      submitting := true;
      var next := if feedback == Some(kind) then None else Some(kind);
      feedback := next;
      if hasCallback {
        submissions := submissions + [Submission(messageId.value, sessionId, next, message, now)];
        if callbackThrows {
          threw := true;
          return;
        }
      }
      submitting := false;
    }

    /** The file-status timer fires. */
    method StatusTimer(fileStatus: string)
      modifies this
      ensures animation == AnimationStep(old(animation), fileStatus)
      ensures feedback == old(feedback) && submitting == old(submitting) && dots == old(dots)
      ensures submissions == old(submissions)
    {
      if animation == Checking {
        if fileStatus == PageCheckOk {
          animation := Success;
        } else if fileStatus == SizeExceeded || fileStatus == NetworkError {
          animation := Fail;
        }
      }
    }

    /** The loading timer ticks. */
    method TickDots()
      modifies this
      ensures dots == NextDots(old(dots))
      ensures |old(dots)| <= 3 ==> |dots| <= 3
      ensures feedback == old(feedback) && submitting == old(submitting) && animation == old(animation)
      ensures submissions == old(submissions)
    {
      if |dots| >= 3 {
        dots := "";
      } else {
        dots := dots + ".";
      }
    }
  }

  /** Clicking the same kind twice returns to no feedback; clicking the other
      kind switches to it. */
  lemma ToggleTwice(f: Option<Feedback>, kind: Feedback)
    ensures var once := if f == Some(kind) then None else Some(kind);
      (if once == Some(kind) then None else Some(kind)) == (if f == Some(kind) then Some(kind) else None)
  {
  }
}
