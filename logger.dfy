/** The `Logger` of lib/logger.ts: level resolution at construction, the
    `shouldLog` threshold test, composition of the record each emit method
    builds, the Cloud Trace field `addRequestTrace` adds, and the line each
    emitted record becomes on the console. */
module Logging {
  import opened Wrappers
  import opened JsStrings
  import opened JsObjects

  /** The four entries of the `levels` table. */
  datatype Severity = ERROR | NOTICE | INFO | DEBUG {
    /** The entry's name, which is also the `severity` value it writes. */
    function Name(): string {
      match this
      case ERROR => "ERROR"
      case NOTICE => "NOTICE"
      case INFO => "INFO"
      case DEBUG => "DEBUG"
    }

    /** The entry's number: higher is more verbose. */
    function Rank(): int {
      match this
      case ERROR => 1
      case NOTICE => 2
      case INFO => 3
      case DEBUG => 4
    }
  }

  /** `Object.keys(levels)`: the table's names in declaration order. */
  const LevelNames: seq<string> := [ERROR.Name(), NOTICE.Name(), INFO.Name(), DEBUG.Name()]

  /** `levels[name]`: the table entry of that name, if there is one. */
  function LevelOf(name: string): (r: Option<Severity>)
    ensures r.Some? ==> r.value.Name() == name
    ensures r.None? ==> forall s: Severity :: s.Name() != name
  {
    if name == ERROR.Name() then Some(ERROR)
    else if name == NOTICE.Name() then Some(NOTICE)
    else if name == INFO.Name() then Some(INFO)
    else if name == DEBUG.Name() then Some(DEBUG)
    else None
  }

  /** The `level` argument of the constructor: a level name or a number. */
  datatype LevelArg = Named(name: string) | Numeric(n: int)

  /** The message of the error the constructor throws for an unknown name. */
  function InvalidLevelMessage(name: string): string
  {
    "invalid level: \"" + name + "\" given. Only " + Join(LevelNames, ",") + " is valid"
  }

  /** The level the constructor stores, or the message it throws. */
  function ResolveLevel(arg: LevelArg): (r: Result<int, string>)
    ensures arg.Numeric? ==> r == Success(arg.n)
    ensures arg.Named? ==> (r.Success? <==> arg.name in LevelNames)
    ensures arg.Named? && r.Success? ==> 1 <= r.value <= 4
  {
    match arg
    case Numeric(n) => Success(n)
    case Named(name) =>
      match LevelOf(name)
      case Some(s) => Success(s.Rank())
      case None => Failure(InvalidLevelMessage(name))
  }

  /** `shouldLog`: a call of rank `called` is emitted by a logger at `configured`. */
  function ShouldLog(called: int, configured: int): bool
  {
    called <= configured
  }

  /** The request header that carries the trace context. */
  const TraceHeader: string := "X-Cloud-Trace-Context"

  /** The property Cloud Logging reads the trace from. */
  const TraceKey: string := "logging.googleapis.com/trace"

  /** The fixed project part of the trace value. */
  const TracePrefix: string := "projects/hallonpaj/traces/"

  /** The trace value for the header the request returned: the header (or
      `''` when it is missing or empty) split on `/`, the array rendered by
      template interpolation, that is joined with `,`. */
  function TraceValue(header: Option<string>): string
  {
    TracePrefix + Join(Split(header.GetOr(""), '/'), ",")
  }

  /** `addRequestTrace`: with a request, sets the trace property of `log`;
      without one, leaves `log` alone. */
  function AddRequestTrace(hasRequest: bool, header: Option<string>, log: Record): (r: Record)
    ensures !hasRequest ==> r == log
    ensures hasRequest ==> Lookup(r, TraceKey) == Some(Defined(Str(TraceValue(header))))
    ensures hasRequest ==> forall k :: k != TraceKey ==> Lookup(r, k) == Lookup(log, k)
    ensures hasRequest ==> Keys(r) == if TraceKey in Keys(log) then Keys(log) else Keys(log) + [TraceKey]
  {
    if hasRequest then Put(log, TraceKey, Defined(Str(TraceValue(header)))) else log
  }

  /** The error object `error` may be given: its message and its stack (which
      the runtime may leave undefined). */
  datatype ErrorInfo = ErrorInfo(message: string, stack: Option<string>)

  /** The literal part of the record an emit method builds, before the
      entry is spread onto it: `severity`, and for `error` also `stack` and
      `error_message`, both undefined when no error object is given. */
  function Head(s: Severity, err: Option<ErrorInfo>): Record
  {
    var severity := ("severity", Defined(Str(s.Name())));
    if s == ERROR then
      var stack := if err.Some? && err.value.stack.Some? then Defined(Str(err.value.stack.value)) else Undefined;
      var message := if err.Some? then Defined(Str(err.value.message)) else Undefined;
      [severity, ("stack", stack), ("error_message", message)]
    else
      [severity]
  }

  /** The property names `Head` lays down, in order. */
  function HeadKeys(s: Severity): seq<string>
  {
    if s == ERROR then ["severity", "stack", "error_message"] else ["severity"]
  }

  /** The record an emit method of severity `s` hands to `JSON.stringify`. */
  function LogRecord(s: Severity, err: Option<ErrorInfo>, entry: Record, hasRequest: bool, header: Option<string>): Record
  {
    AddRequestTrace(hasRequest, header, Spread(Head(s, err), entry))
  }

  /** The line `JSON.stringify` makes of that record. */
  function Emitted(s: Severity, err: Option<ErrorInfo>, entry: Record, hasRequest: bool, header: Option<string>): Line
  {
    Stringify(LogRecord(s, err, entry, hasRequest, header))
  }

  /** The console: every line written so far. */
  class Console {
    var lines: seq<Line>

    constructor ()
      ensures lines == []
    {
      lines := [];
    }

    /** `console.log(JSON.stringify(log))`: one more line. */
    method Log(line: Line)
      modifies this
      ensures lines == old(lines) + [line]
    {
      lines := lines + [line];
    }
  }

  /** The request a logger may be given: only its headers are visible, and
      they may change between calls. */
  class Request {
    var headers: map<string, string>

    constructor (headers: map<string, string>)
      ensures this.headers == headers
    {
      this.headers := headers;
    }

    /** `request.header(name)`. */
    function Header(name: string): Option<string>
      reads this
    {
      if name in headers then Some(headers[name]) else None
    }
  }

  class Logger {
    /** The threshold: private, and assigned once, at construction. */
    const level: int
    /** `this.args.request`. The constructor keeps the caller's `args`
        object, whose `request` property stays assignable, so each emitting
        call reads it afresh. */
    var request: Request?
    const console: Console

    constructor (level: int, request: Request?, console: Console)
      ensures this.level == level && this.request == request && this.console == console
    {
      this.level := level;
      this.request := request;
      this.console := console;
    }

    /** `new Logger({level, request})`: fails with the message the
        constructor throws when the level name is unknown. */
    static method Create(arg: LevelArg, request: Request?, console: Console) returns (r: Result<Logger, string>)
      ensures r.Failure? <==> ResolveLevel(arg).Failure?
      ensures r.Failure? ==> r.error == ResolveLevel(arg).error
      ensures r.Success? ==> fresh(r.value) && r.value.level == ResolveLevel(arg).value
      ensures r.Success? ==> r.value.request == request && r.value.console == console
    {
      var resolved := ResolveLevel(arg);
      if resolved.Failure? {
        return Failure(resolved.error);
      }
      var logger := new Logger(resolved.value, request, console);
      return Success(logger);
    }

    /** The trace header as the request returns it now; nothing without a request. */
    function CurrentHeader(): Option<string>
      reads this, request
    {
      if request == null then None else request.Header(TraceHeader)
    }

    /** The line a call of severity `s` writes, given the request's current headers. */
    function LineFor(s: Severity, err: Option<ErrorInfo>, entry: Record): Line
      reads this, request
    {
      Emitted(s, err, entry, request != null, CurrentHeader())
    }

    /** What the four emit methods share: filter, build, trace, write. */
    method Emit(s: Severity, err: Option<ErrorInfo>, entry: Record)
      modifies console
      ensures console.lines == old(console.lines) + if ShouldLog(s.Rank(), level) then [LineFor(s, err, entry)] else []
    {
      if !ShouldLog(s.Rank(), level) {
        return;
      }
      var log := Spread(Head(s, err), entry);
      if request != null {
        log := AddRequestTrace(true, request.Header(TraceHeader), log);
      }
      console.Log(Stringify(log));
    }

    method Error(err: Option<ErrorInfo>, entry: Record)
      modifies console
      ensures console.lines == old(console.lines) + if ShouldLog(ERROR.Rank(), level) then [LineFor(ERROR, err, entry)] else []
    {
      Emit(ERROR, err, entry);
    }

    method Notice(entry: Record)
      modifies console
      ensures console.lines == old(console.lines) + if ShouldLog(NOTICE.Rank(), level) then [LineFor(NOTICE, None, entry)] else []
    {
      Emit(NOTICE, None, entry);
    }

    method Info(entry: Record)
      modifies console
      ensures console.lines == old(console.lines) + if ShouldLog(INFO.Rank(), level) then [LineFor(INFO, None, entry)] else []
    {
      Emit(INFO, None, entry);
    }

    method Debug(entry: Record)
      modifies console
      ensures console.lines == old(console.lines) + if ShouldLog(DEBUG.Rank(), level) then [LineFor(DEBUG, None, entry)] else []
    {
      Emit(DEBUG, None, entry);
    }
  }
}
