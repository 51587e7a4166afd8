/** The automation scripts' logger (utils/logger.py, AppiumLogger): one line per
    message with an icon, the time, the level, the component and an optional
    context, printed to standard output. The clock and the float formatting
    are parameters; standard output is the sequence of printed texts. */
module Logger {
  import opened Wrappers
  import opened Text

  const DebugLevel: string := "DEBUG"
  const InfoLevel: string := "INFO"
  const SuccessLevel: string := "SUCCESS"
  const WarningLevel: string := "WARNING"
  const ErrorLevel: string := "ERROR"
  const CriticalLevel: string := "CRITICAL"

  /** AppiumLogger.LEVELS: the icon shown for each known level. */
  const Levels: map<string, string> := map[
    DebugLevel := "\U{1F50D}",
    InfoLevel := "\U{2139}\U{FE0F}",
    SuccessLevel := "\U{2705}",
    WarningLevel := "\U{26A0}\U{FE0F}",
    ErrorLevel := "\U{274C}",
    CriticalLevel := "\U{1F6A8}"
  ]

  /** The icon of a level LEVELS does not know. */
  const DefaultIcon: string := "\U{1F4CB}"

  /** `LEVELS.get(level, '📋')`. */
  function Icon(level: string): string {
    if level in Levels then Levels[level] else DefaultIcon
  }

  /** The six levels have their own icons and every other level gets the default. */
  lemma IconTable(level: string)
    ensures Icon(DebugLevel) == "\U{1F50D}" && Icon(InfoLevel) == "\U{2139}\U{FE0F}"
    ensures Icon(SuccessLevel) == "\U{2705}" && Icon(WarningLevel) == "\U{26A0}\U{FE0F}"
    ensures Icon(ErrorLevel) == "\U{274C}" && Icon(CriticalLevel) == "\U{1F6A8}"
    ensures level !in {DebugLevel, InfoLevel, SuccessLevel, WarningLevel, ErrorLevel, CriticalLevel} ==>
      Icon(level) == DefaultIcon
  {
    assert Levels.Keys == {DebugLevel, InfoLevel, SuccessLevel, WarningLevel, ErrorLevel, CriticalLevel};
  }

  /** A log context: the dictionary's entries in insertion order, each value
      already rendered with str(). */
  type Context = seq<(string, string)>

  /** The `k=v` texts of a context, in order. */
  function Entries(ctx: Context): (texts: seq<string>)
    ensures |texts| == |ctx|
    ensures forall i :: 0 <= i < |ctx| ==> texts[i] == ctx[i].0 + "=" + ctx[i].1
  {
    seq(|ctx|, i requires 0 <= i < |ctx| => ctx[i].0 + "=" + ctx[i].1)
  }

  /** `", ".join(f"{k}={v}" for k, v in context.items())`. */
  function ContextText(ctx: Context): string {
    Join(Entries(ctx), ", ")
  }

  /** `[ts] [LEVEL] component: message`, the part of the line before any context. */
  function Header(ts: string, component: string, level: string, message: string): string {
    "[" + ts + "] [" + level + "] " + component + ": " + message
  }

  /** AppiumLogger._format_message, with the time given as its `%H:%M:%S` text.
      A None or empty context adds nothing; any other adds ` | ` and its entries. */
  function FormatMessage(ts: string, component: string, level: string, message: string,
                         context: Option<Context>): (line: string)
    ensures context == None || context == Some([]) ==>
      line == Icon(level) + " " + Header(ts, component, level, message)
    ensures context.Some? && context.value != [] ==>
      line == Icon(level) + " " + Header(ts, component, level, message) + " | " + ContextText(context.value)
  {
    var formatted := Header(ts, component, level, message);
    var formatted := if context.Some? && |context.value| > 0
      then formatted + " | " + ContextText(context.value) else formatted;
    Icon(level) + " " + formatted
  }

  /** A context of one entry reads `k=v`. */
  lemma ContextOne(k: string, v: string)
    ensures ContextText([(k, v)]) == k + "=" + v
  {
  }

  /** Entries are shown in insertion order: adding one to a non-empty context
      puts `, k=v` after what was there. */
  lemma ContextAppend(ctx: Context, k: string, v: string)
    requires ctx != []
    ensures ContextText(ctx + [(k, v)]) == ContextText(ctx) + ", " + k + "=" + v
  {
    assert Entries(ctx + [(k, v)]) == Entries(ctx) + [k + "=" + v];
    JoinAppend(Entries(ctx), k + "=" + v, ", ");
  }

  /** The context of two entries, the shape of log_action's and log_element_search's. */
  lemma ContextTwo(k1: string, v1: string, k2: string, v2: string)
    ensures ContextText([(k1, v1), (k2, v2)]) == k1 + "=" + v1 + ", " + k2 + "=" + v2
  {
    ContextAppend([(k1, v1)], k2, v2);
    assert [(k1, v1)] + [(k2, v2)] == [(k1, v1), (k2, v2)];
  }

  /** The level log_api_call logs at: SUCCESS for 2xx, WARNING for 4xx, ERROR
      for every other code. */
  function ApiCallLevel(statusCode: int): (level: string)
    ensures level == SuccessLevel <==> 200 <= statusCode < 300
    ensures level == WarningLevel <==> 400 <= statusCode < 500
    ensures level == ErrorLevel <==> !(200 <= statusCode < 300) && !(400 <= statusCode < 500)
  {
    if 200 <= statusCode < 300 then SuccessLevel
    else if 400 <= statusCode < 500 then WarningLevel
    else ErrorLevel
  }

  /** The message log_api_call logs at each level. */
  function ApiCallMessage(statusCode: int): string {
    if 200 <= statusCode < 300 then "API call successful"
    else if 400 <= statusCode < 500 then "API client error"
    else "API server error"
  }

  /** Python's truth test on an optional float: None and 0.0 are false. */
  predicate Truthy(x: Option<real>) {
    x.Some? && x.value != 0.0
  }

  /** The context log_api_call builds, in insertion order; `fmt` stands for the
      `f"{x:.3f}"` float formatting. */
  function ApiCallContext(api: string, httpMethod: string, statusCode: int, responseTime: Option<real>,
                          fmt: real -> string): (ctx: Context)
    ensures |ctx| >= 3 && ctx[..3] == [("api", api), ("method", httpMethod), ("status", IntToString(statusCode))]
    ensures Truthy(responseTime) <==> |ctx| == 4
    ensures |ctx| == 4 ==> ctx[3] == ("response_time", fmt(responseTime.value) + "s")
  {
    [("api", api), ("method", httpMethod), ("status", IntToString(statusCode))]
    + (if Truthy(responseTime) then [("response_time", fmt(responseTime.value) + "s")] else [])
  }

  /** The context log_element_search builds: the selector as `type='value'`, then
      the attempt count. */
  function ElementSearchContext(selectorType: string, selectorValue: string, attempts: int): (ctx: Context)
    ensures ContextText(ctx) == "selector=" + selectorType + "='" + selectorValue + "', attempts=" + IntToString(attempts)
  {
    var ctx := [("selector", selectorType + "='" + selectorValue + "'"), ("attempts", IntToString(attempts))];
    ContextTwo("selector", selectorType + "='" + selectorValue + "'", "attempts", IntToString(attempts));
    ctx
  }

  /** The context log_action builds: always the target, then the duration when
      one is given and non-zero; `fmt` stands for `f"{x:.2f}"`. */
  function ActionContext(target: string, duration: Option<real>, fmt: real -> string): (ctx: Context)
    ensures |ctx| >= 1 && ctx[0] == ("target", target)
    ensures Truthy(duration) <==> |ctx| == 2
    ensures |ctx| == 2 ==> ctx[1] == ("duration", fmt(duration.value) + "s")
  {
    [("target", target)] + (if Truthy(duration) then [("duration", fmt(duration.value) + "s")] else [])
  }

  /** What traceback.format_exc() returns when no exception is being handled. */
  const NoTraceback: string := "NoneType: None\n"

  /** The line log_session_start writes for one configuration entry. */
  function ConfigLine(ts: string, component: string, entry: (string, string)): string {
    FormatMessage(ts, component, InfoLevel, "Config: " + entry.0 + " = " + entry.1, None)
  }

  /** The `Config: key = value` lines log_session_start writes after its first
      line, one per entry and in order. */
  function ConfigLines(ts: string, component: string, config: Context): (lines: seq<string>)
    ensures |lines| == |config|
    ensures forall i :: 0 <= i < |config| ==> lines[i] == ConfigLine(ts, component, config[i])
  {
    seq(|config|, i requires 0 <= i < |config| => ConfigLine(ts, component, config[i]))
  }

  /** Writing the lines of one more entry extends the lines at the end. */
  lemma ConfigLinesAppend(ts: string, component: string, config: Context, i: nat)
    requires i < |config|
    ensures ConfigLines(ts, component, config[..i + 1])
      == ConfigLines(ts, component, config[..i]) + [FormatMessage(ts, component, InfoLevel, "Config: " + config[i].0 + " = " + config[i].1, None)]
  {
    assert config[..i + 1][i] == config[i];
  }

  /** One logger: its component and debug switch, and the session id taken from
      the clock when it was made, are set once; `printed` is what it has written
      to standard output, one entry per print. */
  class AppiumLogger {
    const component: string
    const enableDebug: bool
    const sessionId: string
    var printed: seq<string>

    /** `sessionId` is the `%Y%m%d-%H%M%S` text of the creation time. */
    constructor(component: string, enableDebug: bool, sessionId: string)
      ensures this.component == component && this.enableDebug == enableDebug
      ensures this.sessionId == sessionId && printed == []
    {
      this.component := component;
      this.enableDebug := enableDebug;
      this.sessionId := sessionId;
      printed := [];
    }

    /** _safe_print: the line is written as it stands. */
    method SafePrint(line: string)
      modifies this
      ensures printed == old(printed) + [line]
    {
      printed := printed + [line];
    }

    /** debug: writes only when debugging is enabled. */
    method Debug(ts: string, message: string, context: Option<Context>)
      modifies this
      ensures enableDebug ==> printed == old(printed) + [FormatMessage(ts, component, DebugLevel, message, context)]
      ensures !enableDebug ==> printed == old(printed)
    {
      if enableDebug {
        SafePrint(FormatMessage(ts, component, DebugLevel, message, context));
      }
    }

    /** info: always writes. */
    method Info(ts: string, message: string, context: Option<Context>)
      modifies this
      ensures printed == old(printed) + [FormatMessage(ts, component, InfoLevel, message, context)]
    {
      SafePrint(FormatMessage(ts, component, InfoLevel, message, context));
    }

    /** success: always writes. */
    method Success(ts: string, message: string, context: Option<Context>)
      modifies this
      ensures printed == old(printed) + [FormatMessage(ts, component, SuccessLevel, message, context)]
    {
      SafePrint(FormatMessage(ts, component, SuccessLevel, message, context));
    }

    /** warning: always writes. */
    method Warning(ts: string, message: string, context: Option<Context>)
      modifies this
      ensures printed == old(printed) + [FormatMessage(ts, component, WarningLevel, message, context)]
    {
      SafePrint(FormatMessage(ts, component, WarningLevel, message, context));
    }

    /** error: the line, then with `excInfo` the exception being handled, when
        there is one; `traceback` is what traceback.format_exc() returns. */
    method Error(ts: string, message: string, context: Option<Context>, excInfo: bool, traceback: string)
      modifies this
      ensures var line := FormatMessage(ts, component, ErrorLevel, message, context);
        printed == old(printed) + [line]
          + (if excInfo && traceback != NoTraceback then ["\U{1F50D} Exception details: " + traceback] else [])
    {
      SafePrint(FormatMessage(ts, component, ErrorLevel, message, context));
      if excInfo {
        var tb := traceback;
        if tb != NoTraceback {
          printed := printed + ["\U{1F50D} Exception details: " + tb];
        }
      }
    }

    /** critical: like error, with its own traceback banner; the source passes
        `excInfo` true unless told otherwise. */
    method Critical(ts: string, message: string, context: Option<Context>, excInfo: bool, traceback: string)
      modifies this
      ensures var line := FormatMessage(ts, component, CriticalLevel, message, context);
        printed == old(printed) + [line]
          + (if excInfo && traceback != NoTraceback then ["\U{1F6A8} Critical exception: " + traceback] else [])
    {
      printed := printed + [FormatMessage(ts, component, CriticalLevel, message, context)];
      if excInfo {
        var tb := traceback;
        if tb != NoTraceback {
          printed := printed + ["\U{1F6A8} Critical exception: " + tb];
        }
      }
    }

    /** log_element_search: a found element is a debug line (so only shown when
        debugging), a missing one a warning. */
    method LogElementSearch(ts: string, selectorType: string, selectorValue: string, found: bool, attempts: int)
      modifies this
      ensures var ctx := Some(ElementSearchContext(selectorType, selectorValue, attempts));
        && (found && enableDebug ==> printed == old(printed) + [FormatMessage(ts, component, DebugLevel, "Element found", ctx)])
        && (found && !enableDebug ==> printed == old(printed))
        && (!found ==> printed == old(printed) + [FormatMessage(ts, component, WarningLevel, "Element not found", ctx)])
    {
      var context := ElementSearchContext(selectorType, selectorValue, attempts);
      if found {
        Debug(ts, "Element found", Some(context));
      } else {
        Warning(ts, "Element not found", Some(context));
      }
    }

    /** log_action: success or error, naming the action, with the target and
        any non-zero duration as context. */
    method LogAction(ts: string, action: string, target: string, success: bool, duration: Option<real>,
                     fmt: real -> string)
      modifies this
      ensures var ctx := Some(ActionContext(target, duration, fmt));
        printed == old(printed) + [if success
          then FormatMessage(ts, component, SuccessLevel, "Action '" + action + "' completed", ctx)
          else FormatMessage(ts, component, ErrorLevel, "Action '" + action + "' failed", ctx)]
    {
      var context := ActionContext(target, duration, fmt);
      if success {
        Success(ts, "Action '" + action + "' completed", Some(context));
      } else {
        Error(ts, "Action '" + action + "' failed", Some(context), false, NoTraceback);
      }
    }

    /** log_api_call: one line at the level the status code selects. */
    method LogApiCall(ts: string, api: string, httpMethod: string, statusCode: int, responseTime: Option<real>,
                      fmt: real -> string)
      modifies this
      ensures printed == old(printed) + [FormatMessage(ts, component, ApiCallLevel(statusCode),
        ApiCallMessage(statusCode), Some(ApiCallContext(api, httpMethod, statusCode, responseTime, fmt)))]
    {
      var context := ApiCallContext(api, httpMethod, statusCode, responseTime, fmt);
      if 200 <= statusCode < 300 {
        Success(ts, "API call successful", Some(context));
      } else if 400 <= statusCode < 500 {
        Warning(ts, "API client error", Some(context));
      } else {
        Error(ts, "API server error", Some(context), false, NoTraceback);
      }
    }

    /** log_session_start: the session line with the session id, then one line
        per configuration entry, in order. */
    method LogSessionStart(ts: string, sessionType: string, config: Context)
      modifies this
      ensures printed == old(printed)
        + [FormatMessage(ts, component, InfoLevel, "Starting " + sessionType + " session", Some([("session_id", sessionId)]))]
        + ConfigLines(ts, component, config)
    {
      Info(ts, "Starting " + sessionType + " session", Some([("session_id", sessionId)]));
      var start := printed;
      for i := 0 to |config|
        invariant printed == start + ConfigLines(ts, component, config[..i])
      {
        var key, value := config[i].0, config[i].1;
        Info(ts, "Config: " + key + " = " + value, None);
        ConfigLinesAppend(ts, component, config, i);
      }
      assert config[..|config|] == config;
    }

    /** log_session_stats: one info line with the statistics as context. */
    method LogSessionStats(ts: string, stats: Context)
      modifies this
      ensures printed == old(printed) + [FormatMessage(ts, component, InfoLevel, "Session Statistics:", Some(stats))]
    {
      Info(ts, "Session Statistics:", Some(stats));
    }

    /** log_screen_state: the screen, and the number of elements found when the
        list is given and not empty (`elementsFound` is its length). */
    method LogScreenState(ts: string, screen: string, elementsFound: Option<nat>)
      modifies this
      ensures var ctx := [("screen", screen)]
        + (if elementsFound.Some? && elementsFound.value > 0 then [("elements", IntToString(elementsFound.value))] else []);
        printed == old(printed) + [FormatMessage(ts, component, InfoLevel, "Screen state detected", Some(ctx))]
    {
      var context := [("screen", screen)];
      if elementsFound.Some? && elementsFound.value > 0 {
        context := context + [("elements", IntToString(elementsFound.value))];
      }
      Info(ts, "Screen state detected", Some(context));
    }
  }

  /** get_logger: a fresh logger for the given component, debug switch and session
      id that has printed nothing. */
  method GetLogger(component: string, enableDebug: bool, sessionId: string) returns (logger: AppiumLogger)
    ensures fresh(logger)
    ensures logger.component == component && logger.enableDebug == enableDebug && logger.sessionId == sessionId
    ensures logger.printed == []
  {
    logger := new AppiumLogger(component, enableDebug, sessionId);
  }

  /** The keyword arguments of the quick functions become the context, none
      when there are none. */
  function QuickContext(context: Context): Option<Context> {
    if context == [] then None else Some(context)
  }

  /** log_info: a throw-away logger writes one info line. */
  method LogInfo(ts: string, sessionId: string, component: string, message: string, context: Context)
    returns (printed: seq<string>)
    ensures printed == [FormatMessage(ts, component, InfoLevel, message, QuickContext(context))]
  {
    var logger := GetLogger(component, false, sessionId);
    logger.Info(ts, message, QuickContext(context));
    printed := logger.printed;
  }

  /** log_error: a throw-away logger writes one error line, and the exception
      when asked to and there is one. */
  method LogError(ts: string, sessionId: string, component: string, message: string, excInfo: bool,
                  traceback: string, context: Context)
    returns (printed: seq<string>)
    ensures printed == [FormatMessage(ts, component, ErrorLevel, message, QuickContext(context))]
      + (if excInfo && traceback != NoTraceback then ["\U{1F50D} Exception details: " + traceback] else [])
  {
    var logger := GetLogger(component, false, sessionId);
    logger.Error(ts, message, QuickContext(context), excInfo, traceback);
    printed := logger.printed;
  }

  /** log_success: a throw-away logger writes one success line. */
  method LogSuccess(ts: string, sessionId: string, component: string, message: string, context: Context)
    returns (printed: seq<string>)
    ensures printed == [FormatMessage(ts, component, SuccessLevel, message, QuickContext(context))]
  {
    var logger := GetLogger(component, false, sessionId);
    logger.Success(ts, message, QuickContext(context));
    printed := logger.printed;
  }
}
