/** The process-wide `Logger`: leveled, timestamped lines written to the
    console sink, with debug lines gated by a flag. The clock is a parameter
    (`ts`, the ISO-8601 timestamp of the call) and the console is an object
    whose calls are recorded in order. */
module Logging {
  import opened Common

  datatype Level = DebugLevel | InfoLevel | WarnLevel | ErrorLevel

  function LevelName(level: Level): string {
    match level
    case DebugLevel => "debug"
    case InfoLevel => "info"
    case WarnLevel => "warn"
    case ErrorLevel => "error"
  }

  /** The formatted line and the arguments passed along with it. */
  datatype LogRecord = LogRecord(message: string, args: seq<Value>)

  const InvalidLogger := AppError("[info] Invalid logger instance!", None)

  /** `<ts> - [<level>]`, the head of every line. */
  function Prefix(ts: string, level: Level): string {
    ts + " - [" + LevelName(level) + "]"
  }

  /** `generateLog`: a string message follows the prefix after one space; any
      other message is moved to the front of the arguments. */
  function GenerateLog(ts: string, level: Level, message: Value, args: seq<Value>): (r: LogRecord)
    ensures Prefix(ts, level) <= r.message
    ensures |r.message| > |Prefix(ts, level)| <==> message.Str?
    ensures message.Str? ==> r.message[|Prefix(ts, level)|] == ' ' && r.message[|Prefix(ts, level)| + 1..] == message.s
    ensures |r.args| == |args| + (if message.Str? then 0 else 1)
    ensures r.args[|r.args| - |args|..] == args
  {
    if message.Str? then LogRecord(Prefix(ts, level) + " " + message.s, args)
    else LogRecord(Prefix(ts, level), [message] + args)
  }

  /** Reads a record back into the message and arguments it was built from,
      given the timestamp and level: a line longer than the prefix carries a
      string message after the separating space (a record with any other
      character there reads as nothing), otherwise the message is the first
      argument. */
  function ReadLog(ts: string, level: Level, record: LogRecord): (Value, seq<Value>) {
    var n := |Prefix(ts, level)|;
    if |record.message| > n then
      if record.message[n] == ' ' then (Str(record.message[n + 1..]), record.args) else (Undefined, [])
    else if record.args != [] then (record.args[0], record.args[1..])
    else (Undefined, [])
  }

  /** Formatting loses nothing: the message and every argument, in order, are
      recovered from the generated record. */
  lemma GenerateLogRoundTrip(ts: string, level: Level, message: Value, args: seq<Value>)
    ensures ReadLog(ts, level, GenerateLog(ts, level, message, args)) == (message, args)
  {
    var p := Prefix(ts, level);
    if message.Str? {
      assert (p + " " + message.s)[|p| + 1..] == message.s;
    } else {
      assert ([message] + args)[1..] == args;
    }
  }

  /** The console method a call went through. */
  datatype ConsoleMethod = ConsoleDebug | ConsoleInfo | ConsoleWarn | ConsoleError

  datatype ConsoleCall = ConsoleCall(via: ConsoleMethod, message: string, args: seq<Value>)

  /** The output sink: the calls made on it so far, oldest first. */
  class Console {
    var calls: seq<ConsoleCall>

    constructor ()
      ensures calls == []
    {
      calls := [];
    }

    method Info(message: string, args: seq<Value>)
      modifies this
      ensures calls == old(calls) + [ConsoleCall(ConsoleInfo, message, args)]
    {
      calls := calls + [ConsoleCall(ConsoleInfo, message, args)];
    }
  }

  /** The console call one log line becomes: always `info`, whatever the level. */
  function Emitted(ts: string, level: Level, message: Value, args: seq<Value>): ConsoleCall {
    var generated := GenerateLog(ts, level, message, args);
    ConsoleCall(ConsoleInfo, generated.message, generated.args)
  }

  class Logger {
    var isDebugEnabled: bool

    /** `opts?.enableDebug ?? false`. */
    constructor (enableDebug: Option<bool>)
      ensures isDebugEnabled <==> enableDebug == Some(true)
    {
      isDebugEnabled := enableDebug == Some(true);
    }

    /** `state || !isDebugEnabled`: `true` switches debug on, anything else
        flips it, so `false` turns a disabled logger on. */
    method ToggleDebug(state: Option<bool>)
      modifies this
      ensures state == Some(true) ==> isDebugEnabled
      ensures state != Some(true) ==> isDebugEnabled == !old(isDebugEnabled)
    {
      isDebugEnabled := state == Some(true) || !isDebugEnabled;
    }

    /** `log`: fails without a sink; a debug line while debug is disabled
        writes nothing; every other line is one `info` call on the sink. */
    method Log(sink: Console?, level: Level, ts: string, message: Value, args: seq<Value>)
      returns (outcome: Outcome)
      modifies sink
      ensures sink == null ==> outcome == Abort(InvalidLogger)
      ensures sink != null ==> outcome == Pass
      ensures sink != null && level == DebugLevel && !isDebugEnabled ==>
        sink.calls == old(sink.calls)
      ensures sink != null && (level != DebugLevel || isDebugEnabled) ==>
        sink.calls == old(sink.calls) + [Emitted(ts, level, message, args)]
    {
      if sink == null {
        return Abort(InvalidLogger);
      }
      if level == DebugLevel && !isDebugEnabled {
        return Pass;
      }
      var generated := GenerateLog(ts, level, message, args);
      sink.Info(generated.message, generated.args);
      outcome := Pass;
    }

    method Debug(sink: Console?, ts: string, message: Value, args: seq<Value>) returns (outcome: Outcome)
      modifies sink
      ensures sink == null ==> outcome == Abort(InvalidLogger)
      ensures sink != null ==> outcome == Pass
      ensures sink != null && !isDebugEnabled ==> sink.calls == old(sink.calls)
      ensures sink != null && isDebugEnabled ==>
        sink.calls == old(sink.calls) + [Emitted(ts, DebugLevel, message, args)]
    {
      outcome := Log(sink, DebugLevel, ts, message, args);
    }

    method Info(sink: Console?, ts: string, message: Value, args: seq<Value>) returns (outcome: Outcome)
      modifies sink
      ensures sink == null ==> outcome == Abort(InvalidLogger)
      ensures sink != null ==> outcome == Pass && sink.calls == old(sink.calls) + [Emitted(ts, InfoLevel, message, args)]
    {
      outcome := Log(sink, InfoLevel, ts, message, args);
    }

    method Warn(sink: Console?, ts: string, message: Value, args: seq<Value>) returns (outcome: Outcome)
      modifies sink
      ensures sink == null ==> outcome == Abort(InvalidLogger)
      ensures sink != null ==> outcome == Pass && sink.calls == old(sink.calls) + [Emitted(ts, WarnLevel, message, args)]
    {
      outcome := Log(sink, WarnLevel, ts, message, args);
    }

    method Error(sink: Console?, ts: string, message: Value, args: seq<Value>) returns (outcome: Outcome)
      modifies sink
      ensures sink == null ==> outcome == Abort(InvalidLogger)
      ensures sink != null ==> outcome == Pass && sink.calls == old(sink.calls) + [Emitted(ts, ErrorLevel, message, args)]
    {
      outcome := Log(sink, ErrorLevel, ts, message, args);
    }
  }

  /** Holder of the static `Logger.instance`. */
  class LoggerRegistry {
    var instance: Logger?

    constructor ()
      ensures instance == null
    {
      instance := null;
    }

    /** `getInstance`: creates the logger on first use and hands back the same
        one afterwards, resetting its debug flag to `opts?.enableDebug ?? false`
        on every call. */
    method GetInstance(enableDebug: Option<bool>) returns (l: Logger)
      modifies this, instance
      ensures old(instance) != null ==> l == old(instance)
      ensures old(instance) == null ==> fresh(l)
      ensures instance == l
      ensures l.isDebugEnabled <==> enableDebug == Some(true)
    {
      if instance == null {
        instance := new Logger(enableDebug);
      }
      instance.isDebugEnabled := enableDebug == Some(true);
      l := instance;
    }
  }
}
