/** The structured logger (server/src/logger.ts): level filtering, the
    one-line rendering of an entry, ANSI colouring, the choice of console
    channel and the context merge of child loggers.  The clock reading
    (`timestamp`) and `JSON.stringify` of a context (`stringify`) are
    parameters; the console and file writes are the `Output` value. */
module Logger {
  import opened Wrappers
  import opened Json
  import opened Text

  datatype Level = Debug | Info | Warn | Error | Fatal

  /** `levelPriority`. */
  function Priority(l: Level): (p: nat)
    ensures p <= 4
  {
    match l
    case Debug => 0
    case Info => 1
    case Warn => 2
    case Error => 3
    case Fatal => 4
  }

  /** The level's name as written in the source and in `LOG_LEVEL`. */
  function LevelName(l: Level): string {
    match l
    case Debug => "debug"
    case Info => "info"
    case Warn => "warn"
    case Error => "error"
    case Fatal => "fatal"
  }

  /** The level a configured name denotes, if any. */
  function ParseLevel(s: string): (r: Option<Level>)
    ensures r.Some? ==> LevelName(r.value) == s
  {
    if s == "debug" then Some(Debug)
    else if s == "info" then Some(Info)
    else if s == "warn" then Some(Warn)
    else if s == "error" then Some(Error)
    else if s == "fatal" then Some(Fatal)
    else None
  }

  /** The five levels are totally ordered by priority, and every name parses
      back to its level. */
  lemma LevelsOrdered(a: Level, b: Level)
    ensures Priority(a) == Priority(b) <==> a == b
    ensures ParseLevel(LevelName(a)) == Some(a)
    ensures Priority(Debug) < Priority(Info) < Priority(Warn) < Priority(Error) < Priority(Fatal)
  {
  }

  /** `minLevel: LOG_LEVEL || 'info'`: the variable is taken as is, without
      checking that it names a level. */
  function MinLevelSetting(logLevelVariable: Option<string>): (r: string)
    ensures logLevelVariable.Some? && logLevelVariable.value != "" ==> r == logLevelVariable.value
    ensures logLevelVariable.None? || logLevelVariable.value == "" ==> r == "info"
  {
    if logLevelVariable.Some? && logLevelVariable.value != "" then logLevelVariable.value else "info"
  }

  /** `shouldLog`: the entry's priority is at least the minimum's.  A
      minimum that names no level has an undefined priority, and every
      comparison with it is false. */
  predicate ShouldLog(level: Level, minLevel: string) {
    match ParseLevel(minLevel)
    case None => false
    case Some(m) => Priority(level) >= Priority(m)
  }

  /** Filtering is monotone in the level; fatal entries pass any valid
      minimum, and an invalid minimum silences the logger entirely. */
  lemma ShouldLogLaws(level: Level, higher: Level, minLevel: string)
    ensures ShouldLog(level, minLevel) && Priority(higher) >= Priority(level) ==> ShouldLog(higher, minLevel)
    ensures ParseLevel(minLevel).Some? ==> ShouldLog(Fatal, minLevel)
    ensures ParseLevel(minLevel).None? ==> !ShouldLog(level, minLevel)
    ensures ShouldLog(level, LevelName(higher)) <==> Priority(level) >= Priority(higher)
  {
    LevelsOrdered(higher, higher);
  }

  /** The default configuration keeps entries of level info and above. */
  lemma DefaultMinimumIsInfo(level: Level)
    ensures ShouldLog(level, MinLevelSetting(None)) <==> level != Debug
  {
  }

  /** An `Error` object handed to the logger: its message, its stack if
      any, and its own enumerable properties. */
  datatype ErrorInfo = ErrorInfo(message: string, stack: Option<string>, properties: map<string, Value>)

  /** `LogEntry`. */
  datatype Entry = Entry(
    timestamp: string,
    level: Level,
    message: string,
    context: Option<map<string, Value>>,
    error: Option<ErrorInfo>,
    requestId: Option<string>)

  datatype Config = Config(
    minLevel: string,
    enableConsole: bool,
    enableFile: bool,
    logFilePath: Option<string>,
    enableColors: bool)

  /** `defaultConfig`, given `LOG_LEVEL` and `NODE_ENV`. */
  function DefaultConfig(logLevelVariable: Option<string>, nodeEnv: Option<string>): (c: Config)
    ensures c.enableConsole && !c.enableFile
    ensures c.enableColors <==> nodeEnv != Some("production")
  {
    Config(MinLevelSetting(logLevelVariable), true, false, None, nodeEnv != Some("production"))
  }

  /** `[<timestamp>] [<LEVEL>]`. */
  function Header(e: Entry): string {
    "[" + e.timestamp + "] [" + Upper(LevelName(e.level)) + "]"
  }

  /** ` [<requestId>]` for a non-empty request id. */
  function RequestIdPart(requestId: Option<string>): (r: string)
    ensures r == "" <==> requestId.None? || requestId.value == ""
  {
    if requestId.Some? && requestId.value != "" then " [" + requestId.value + "]" else ""
  }

  /** ` | <context JSON>` for a context with at least one key. */
  function ContextPart(context: Option<map<string, Value>>, stringify: map<string, Value> -> string): (r: string)
    ensures r == "" <==> context.None? || |context.value| == 0
  {
    if context.Some? && |context.value| > 0 then " | " + stringify(context.value) else ""
  }

  /** ` | Error: <message>`, then a newline and the stack when it is
      non-empty. */
  function ErrorPart(error: Option<ErrorInfo>): (r: string)
    ensures r == "" <==> error.None?
  {
    match error
    case None => ""
    case Some(x) =>
      " | Error: " + x.message + (if x.stack.Some? && x.stack.value != "" then "\n" + x.stack.value else "")
  }

  /** Everything after the request id: the message, the context and the
      error. */
  function Body(e: Entry, stringify: map<string, Value> -> string): string {
    " " + e.message + ContextPart(e.context, stringify) + ErrorPart(e.error)
  }

  /** `formatEntry`. */
  function FormatEntry(e: Entry, stringify: map<string, Value> -> string): (r: string)
    ensures Header(e) <= r
  {
    Header(e) + (RequestIdPart(e.requestId) + Body(e, stringify))
  }

  /** The level tag is the level's name in capitals. */
  lemma LevelTags()
    ensures Upper(LevelName(Debug)) == "DEBUG" && Upper(LevelName(Info)) == "INFO"
    ensures Upper(LevelName(Warn)) == "WARN" && Upper(LevelName(Error)) == "ERROR"
    ensures Upper(LevelName(Fatal)) == "FATAL"
  {
  }

  /** Without request id, context or error, a line is the header, a space
      and the message. */
  lemma FormatBare(e: Entry, stringify: map<string, Value> -> string)
    requires e.requestId.None? || e.requestId.value == ""
    requires e.context.None? || |e.context.value| == 0
    requires e.error.None?
    ensures FormatEntry(e, stringify) == Header(e) + " " + e.message
  {
  }

  /** A request id is inserted right after the header and changes nothing
      else; an empty one is the same as none. */
  lemma FormatRequestId(e: Entry, id: string, stringify: map<string, Value> -> string)
    requires e.requestId.None?
    ensures FormatEntry(e, stringify) == Header(e) + Body(e, stringify)
    ensures id != "" ==> FormatEntry(e.(requestId := Some(id)), stringify)
                         == Header(e) + " [" + id + "]" + Body(e, stringify)
    ensures id == "" ==> FormatEntry(e.(requestId := Some(id)), stringify) == FormatEntry(e, stringify)
  {
  }

  /** An empty context map prints as no context at all. */
  lemma FormatEmptyContext(e: Entry, stringify: map<string, Value> -> string)
    ensures FormatEntry(e.(context := Some(map[])), stringify) == FormatEntry(e.(context := None), stringify)
  {
  }

  /** An error with a non-empty stack ends the line with a newline and the
      stack; the error's message follows the marker ` | Error: `. */
  lemma FormatErrorTail(e: Entry, stringify: map<string, Value> -> string)
    requires e.error.Some?
    ensures var x := e.error.value;
      var r := FormatEntry(e, stringify);
      && (x.stack.Some? && x.stack.value != "" ==>
            |r| > |x.stack.value| && r[|r| - |x.stack.value| - 1..] == "\n" + x.stack.value)
      && (x.stack.None? || x.stack.value == "" ==>
            |r| >= |x.message| + 10 && r[|r| - |x.message| - 10..] == " | Error: " + x.message)
  {
    var x := e.error.value;
    var front := Header(e) + RequestIdPart(e.requestId) + " " + e.message + ContextPart(e.context, stringify);
    assert FormatEntry(e, stringify) == Header(e) + (RequestIdPart(e.requestId) + Body(e, stringify));
    assert FormatEntry(e, stringify) == front + ErrorPart(e.error);
    if x.stack.Some? && x.stack.value != "" {
      assert FormatEntry(e, stringify) == (front + " | Error: " + x.message) + ("\n" + x.stack.value);
    } else {
      assert FormatEntry(e, stringify) == front + (" | Error: " + x.message);
    }
  }

  /** `colors`: the ANSI escape that selects each level's colour. */
  function ColorCode(l: Level): (r: string)
    ensures |r| == 5 && r[..2] == "\U{1B}[" && r[4] == 'm'
  {
    match l
    case Debug => "\U{1B}[36m"
    case Info => "\U{1B}[32m"
    case Warn => "\U{1B}[33m"
    case Error => "\U{1B}[31m"
    case Fatal => "\U{1B}[35m"
  }

  const Reset := "\U{1B}[0m"

  /** Every level has its own colour. */
  lemma ColorCodesDistinct(a: Level, b: Level)
    ensures ColorCode(a) == ColorCode(b) <==> a == b
  {
  }

  /** `colorize`. */
  function Colorize(enabled: bool, l: Level, text: string): (r: string)
    ensures !enabled ==> r == text
    ensures enabled ==> |r| == |text| + 9 && r[..5] == ColorCode(l) && r[|r| - 4..] == Reset
    ensures enabled ==> r[5..|r| - 4] == text
  {
    if enabled then ColorCode(l) + text + Reset else text
  }

  /** Strips the colour of level `l` from a line, when present. */
  function Uncolorize(l: Level, s: string): (r: string)
    ensures |r| <= |s|
  {
    if |s| >= 9 && s[..5] == ColorCode(l) && s[|s| - 4..] == Reset then s[5..|s| - 4] else s
  }

  /** Colouring loses nothing: the plain line can be recovered. */
  lemma ColorizeRoundTrip(enabled: bool, l: Level, text: string)
    requires enabled || !(|text| >= 9 && text[..5] == ColorCode(l) && text[|text| - 4..] == Reset)
    ensures Uncolorize(l, Colorize(enabled, l, text)) == text
  {
  }

  datatype Channel = ConsoleError | ConsoleWarn | ConsoleLog

  /** The console method for a level. */
  function ChannelFor(l: Level): (c: Channel)
    ensures c == ConsoleError <==> l == Error || l == Fatal
    ensures c == ConsoleWarn <==> l == Warn
    ensures c == ConsoleLog <==> l == Debug || l == Info
  {
    match l
    case Error | Fatal => ConsoleError
    case Warn => ConsoleWarn
    case Debug | Info => ConsoleLog
  }

  /** What one `write` emits: a console line on its channel, and a line
      appended to the log file. */
  datatype Output = Output(console: Option<(Channel, string)>, file: Option<string>)

  /** The file stream exists when file output is enabled and a path is
      given. */
  predicate HasFile(c: Config) {
    c.enableFile && c.logFilePath.Some? && c.logFilePath.value != ""
  }

  /** `write`. */
  function Write(c: Config, e: Entry, stringify: map<string, Value> -> string): (o: Output)
    ensures !ShouldLog(e.level, c.minLevel) ==> o == Output(None, None)
    ensures ShouldLog(e.level, c.minLevel) ==> (o.console.Some? <==> c.enableConsole)
    ensures o.console.Some? ==> o.console.value.0 == ChannelFor(e.level)
    ensures o.file.Some? <==> ShouldLog(e.level, c.minLevel) && HasFile(c)
  {
    if !ShouldLog(e.level, c.minLevel) then Output(None, None)
    else
      var line := FormatEntry(e, stringify);
      Output(
        if c.enableConsole then Some((ChannelFor(e.level), Colorize(c.enableColors, e.level, line))) else None,
        if HasFile(c) then Some(line + "\n") else None)
  }

  /** The file receives the uncoloured line the console shows, followed by
      a newline. */
  lemma WriteSameLine(c: Config, e: Entry, stringify: map<string, Value> -> string)
    requires ShouldLog(e.level, c.minLevel) && c.enableConsole && HasFile(c)
    ensures var o := Write(c, e, stringify);
      && o.file.Some? && o.console.Some?
      && o.file.value == Uncolorize(e.level, o.console.value.1) + "\n"
  {
    var line := FormatEntry(e, stringify);
    if !c.enableColors {
      var text := Header(e);
      assert line[..|text|] == text;
      assert |text| >= 9 ==> text[..5][0] == '[';
    }
  }

  /** `child`: the entry's own context keys override the child's
      defaults; an absent context contributes nothing. */
  function ChildContext(defaults: map<string, Value>, context: Option<map<string, Value>>): (r: map<string, Value>)
    ensures r.Keys == defaults.Keys + context.GetOr(map[]).Keys
    ensures forall k :: k in context.GetOr(map[]) ==> r[k] == context.value[k]
    ensures forall k :: k in defaults && k !in context.GetOr(map[]) ==> r[k] == defaults[k]
  {
    defaults + context.GetOr(map[])
  }

  /** A child logger's write: merge the contexts, then the parent's write. */
  function ChildWrite(c: Config, defaults: map<string, Value>, e: Entry, stringify: map<string, Value> -> string): Output {
    Write(c, e.(context := Some(ChildContext(defaults, e.context))), stringify)
  }

  /** A child without defaults writes exactly what its parent writes. */
  lemma ChildWithoutDefaults(c: Config, e: Entry, stringify: map<string, Value> -> string)
    ensures ChildWrite(c, map[], e, stringify) == Write(c, e, stringify)
  {
    if e.context.Some? {
      assert ChildContext(map[], e.context) == e.context.value;
    } else {
      FormatEmptyContext(e, stringify);
    }
  }

  /** The child of a child behaves as one child whose defaults are the
      outer defaults overridden by the inner ones. */
  lemma GrandchildContext(outer: map<string, Value>, inner: map<string, Value>, context: Option<map<string, Value>>)
    ensures ChildContext(outer, Some(ChildContext(inner, context))) == ChildContext(outer + inner, context)
  {
  }
}
