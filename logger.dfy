/** The front-end logger: four levels, a current level read from the
    environment, level-gated methods that write a formatted line to the
    console, and the monitoring hook that only production reaches. The
    environment, the clock and the production flag are inputs; the console
    lines and the monitoring calls are recorded. */
module Logger {
  import opened Common

  /** `LOG_LEVELS[name]`: the level's number, None for a name not in the
      table. */
  function LevelValue(name: string): (r: Option<nat>)
    ensures r.Some? <==> name in {"ERROR", "WARN", "INFO", "DEBUG"}
  {
    if name == "ERROR" then Some(0)
    else if name == "WARN" then Some(1)
    else if name == "INFO" then Some(2)
    else if name == "DEBUG" then Some(3)
    else None
  }

  /** `CURRENT_LOG_LEVEL`: the upper-cased environment value, "INFO" when it
      is absent or empty. */
  function CurrentLevel(env: Option<string>): Option<nat> {
    LevelValue(OrElse(if env.Some? then Some(Upper(env.value)) else None, "INFO"))
  }

  /** A method gated at `level` emits when the current level is defined and
      at least `level`; an undefined level fails every `>=`. */
  predicate Enabled(current: Option<nat>, level: nat) {
    current.Some? && current.value >= level
  }

  /** The levels are ordered ERROR < WARN < INFO < DEBUG; without a setting
      the level is INFO, the setting is read whatever its case, and an
      unknown name leaves the level undefined so that nothing is emitted. */
  lemma LevelsSpec(env: Option<string>)
    ensures LevelValue("ERROR") == Some(0) && LevelValue("WARN") == Some(1)
    ensures LevelValue("INFO") == Some(2) && LevelValue("DEBUG") == Some(3)
    ensures CurrentLevel(None) == Some(2) && CurrentLevel(Some("")) == Some(2)
    ensures CurrentLevel(Some("debug")) == Some(3) && CurrentLevel(Some("Warn")) == Some(1)
    ensures CurrentLevel(Some("verbose")) == None
    ensures CurrentLevel(env).None? ==> forall l :: !Enabled(CurrentLevel(env), l)
  {
    assert Upper("debug") == "DEBUG";
    assert Upper("Warn") == "WARN";
    assert Upper("verbose") == "VERBOSE";
  }

  /** What is emitted grows with the level: whatever a level lets through,
      every higher level does too, and ERROR is emitted whenever the level
      is defined. */
  lemma EnabledMonotone(a: nat, b: nat, level: nat)
    ensures a <= b && Enabled(Some(a), level) ==> Enabled(Some(b), level)
    ensures Enabled(Some(a), 0)
    ensures Enabled(Some(a), level) <==> level <= a
  {
  }

  /** `formatMessage`: `[timestamp] [LEVEL] [context] message`. */
  function FormatMessage(timestamp: string, level: string, context: string, message: string): string {
    "[" + timestamp + "] [" + level + "] [" + context + "] " + message
  }

  /** The line starts with the bracketed timestamp and ends with the
      message, which can be read back after the prefix. */
  lemma FormatSpec(timestamp: string, level: string, context: string, message: string)
    ensures var line := FormatMessage(timestamp, level, context, message);
      var prefix := "[" + timestamp + "] [" + level + "] [" + context + "] ";
      |line| == |prefix| + |message| && line[..|prefix|] == prefix && line[|prefix|..] == message
      && line[0] == '[' && line[1..|timestamp| + 1] == timestamp
  {
    var prefix := "[" + timestamp + "] [" + level + "] [" + context + "] ";
    var line := FormatMessage(timestamp, level, context, message);
    assert line == prefix + message;
  }

  datatype ConsoleMethod = ConsoleError | ConsoleWarn | ConsoleInfo | ConsoleLog

  datatype ConsoleLine = ConsoleLine(channel: ConsoleMethod, text: string)

  datatype MonitorCall = MonitorCall(level: string, message: string)

  class Log {
    const context: string
    const current: Option<nat>
    const production: bool
    var console: seq<ConsoleLine>
    /** The calls of `sendToMonitoring` that get past its production
        test. */
    var monitored: seq<MonitorCall>

    /** `new Logger(context)`, with the current level and the production
        flag of the build. */
    constructor(ctx: string, level: Option<nat>, prod: bool)
      ensures context == ctx && current == level && production == prod && console == [] && monitored == []
    {
      context := ctx;
      current := level;
      production := prod;
      console := [];
      monitored := [];
    }

    /** `sendToMonitoring`: nothing outside production. */
    method SendToMonitoring(level: string, message: string)
      modifies this
      ensures monitored == old(monitored) + (if production then [MonitorCall(level, message)] else [])
      ensures console == old(console)
    {
      if production {
        monitored := monitored + [MonitorCall(level, message)];
      }
    }

    method Error(now: string, message: string)
      modifies this
      ensures console == old(console)
        + (if Enabled(current, 0) then [ConsoleLine(ConsoleError, FormatMessage(now, "ERROR", context, message))] else [])
      ensures monitored == old(monitored)
        + (if Enabled(current, 0) && production then [MonitorCall("ERROR", message)] else [])
    {
      if current.Some? && current.value >= 0 {
        console := console + [ConsoleLine(ConsoleError, FormatMessage(now, "ERROR", context, message))];
        SendToMonitoring("ERROR", message);
      }
    }

    /** `warn`; the data passed along does not change the line. */
    method Warn(now: string, message: string, data: Option<string>)
      modifies this
      ensures console == old(console)
        + (if Enabled(current, 1) then [ConsoleLine(ConsoleWarn, FormatMessage(now, "WARN", context, message))] else [])
      ensures monitored == old(monitored)
        + (if Enabled(current, 1) && production then [MonitorCall("WARN", message)] else [])
    {
      if current.Some? && current.value >= 1 {
        console := console + [ConsoleLine(ConsoleWarn, FormatMessage(now, "WARN", context, message))];
        SendToMonitoring("WARN", message);
      }
    }

    method Info(now: string, message: string, data: Option<string>)
      modifies this
      ensures console == old(console)
        + (if Enabled(current, 2) then [ConsoleLine(ConsoleInfo, FormatMessage(now, "INFO", context, message))] else [])
      ensures monitored == old(monitored)
        + (if Enabled(current, 2) && production then [MonitorCall("INFO", message)] else [])
    {
      if current.Some? && current.value >= 2 {
        console := console + [ConsoleLine(ConsoleInfo, FormatMessage(now, "INFO", context, message))];
        SendToMonitoring("INFO", message);
      }
    }

    /** `debug`: the only method that never reaches monitoring. */
    method Debug(now: string, message: string, data: Option<string>)
      modifies this
      ensures console == old(console)
        + (if Enabled(current, 3) then [ConsoleLine(ConsoleLog, FormatMessage(now, "DEBUG", context, message))] else [])
      ensures monitored == old(monitored)
    {
      if current.Some? && current.value >= 3 {
        console := console + [ConsoleLine(ConsoleLog, FormatMessage(now, "DEBUG", context, message))];
      }
    }

    /** `trackEvent`: an info line "Event: name" when INFO is enabled. */
    method TrackEvent(now: string, eventName: string)
      modifies this
      ensures console == old(console)
        + (if Enabled(current, 2) then [ConsoleLine(ConsoleInfo, FormatMessage(now, "INFO", context, "Event: " + eventName))]
           else [])
      ensures monitored == old(monitored)
        + (if Enabled(current, 2) && production then [MonitorCall("INFO", "Event: " + eventName)] else [])
    {
      if current.Some? && current.value >= 2 {
        Info(now, "Event: " + eventName, None);
      }
    }

    /** `performance`: an info line when INFO is enabled, then, whatever
        the level, the PERFORMANCE monitoring call. */
    method Performance(now: string, metricName: string, duration: int)
      modifies this
      ensures console == old(console)
        + (if Enabled(current, 2) then
             [ConsoleLine(ConsoleInfo, FormatMessage(now, "INFO", context, "Performance: " + metricName))]
           else [])
      ensures monitored == old(monitored)
        + (if Enabled(current, 2) && production then [MonitorCall("INFO", "Performance: " + metricName)] else [])
        + (if production then [MonitorCall("PERFORMANCE", metricName)] else [])
    {
      if current.Some? && current.value >= 2 {
        Info(now, "Performance: " + metricName, Some(IntToString(duration) + "ms"));
      }
      SendToMonitoring("PERFORMANCE", metricName);
    }
  }
}
