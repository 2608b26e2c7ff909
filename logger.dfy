/**
 * The adapter that forwards the engine's log calls to a host structured
 * logger, as pkg/server/logger_test.go fixes its behaviour: each of the six
 * engine calls becomes exactly one record on the host handler, at one of
 * four host severities, carrying the rendered message unchanged. Rendering
 * the printf template is not modelled; a call receives its message already
 * rendered.
 */
module SlogBridge {
  /** The engine's six log calls. */
  datatype EngineLevel = Notice | Warn | Fatal | Error | Debug | Trace

  /** The host logger's severities. */
  datatype Level = LevelDebug | LevelInfo | LevelWarn | LevelError

  /**
   * The severity each engine call is recorded at: Notice is Info, Fatal and
   * Error share Error, and Trace has no severity of its own and shares Debug.
   */
  function LevelOf(c: EngineLevel): (l: Level)
    ensures l == LevelInfo <==> c == Notice
    ensures l == LevelWarn <==> c == Warn
    ensures l == LevelError <==> c == Fatal || c == Error
    ensures l == LevelDebug <==> c == Debug || c == Trace
  {
    match c
    case Notice => LevelInfo
    case Warn => LevelWarn
    case Fatal => LevelError
    case Error => LevelError
    case Debug => LevelDebug
    case Trace => LevelDebug
  }

  /** One record the host handler receives. */
  datatype Record = Record(level: Level, message: string)

  /** A host handler that keeps every record it is given, in order. */
  class Handler {
    var records: seq<Record>

    constructor ()
      ensures records == []
    {
      records := [];
    }

    method Handle(r: Record)
      modifies this
      ensures records == old(records) + [r]
    {
      records := records + [r];
    }
  }

  /** The adapter; every call logs one record to its handler and nothing else. */
  class SlogWrapper {
    const handler: Handler

    constructor (handler: Handler)
      ensures this.handler == handler
    {
      this.handler := handler;
    }

    /** Records `message` at the severity of engine call `c`. */
    method Log(c: EngineLevel, message: string)
      modifies handler
      ensures handler.records == old(handler.records) + [Record(LevelOf(c), message)]
    {
      handler.Handle(Record(LevelOf(c), message));
    }

    method Noticef(message: string)
      modifies handler
      ensures handler.records == old(handler.records) + [Record(LevelInfo, message)]
    {
      Log(Notice, message);
    }

    method Warnf(message: string)
      modifies handler
      ensures handler.records == old(handler.records) + [Record(LevelWarn, message)]
    {
      Log(Warn, message);
    }

    /** Logs at Error and returns: the process is not stopped. */
    method Fatalf(message: string)
      modifies handler
      ensures handler.records == old(handler.records) + [Record(LevelError, message)]
    {
      Log(Fatal, message);
    }

    method Errorf(message: string)
      modifies handler
      ensures handler.records == old(handler.records) + [Record(LevelError, message)]
    {
      Log(Error, message);
    }

    method Debugf(message: string)
      modifies handler
      ensures handler.records == old(handler.records) + [Record(LevelDebug, message)]
    {
      Log(Debug, message);
    }

    method Tracef(message: string)
      modifies handler
      ensures handler.records == old(handler.records) + [Record(LevelDebug, message)]
    {
      Log(Trace, message);
    }
  }

  /**
   * One call on a wrapper over a fresh handler: the handler ends up with
   * exactly one record, at the call's severity, with the message unchanged.
   */
  method LogOnce(c: EngineLevel, message: string) returns (records: seq<Record>)
    ensures |records| == 1
    ensures records[0].level == LevelOf(c) && records[0].message == message
  {
    var handler := new Handler();
    var wrapper := new SlogWrapper(handler);
    match c {
      case Notice => wrapper.Noticef(message);
      case Warn => wrapper.Warnf(message);
      case Fatal => wrapper.Fatalf(message);
      case Error => wrapper.Errorf(message);
      case Debug => wrapper.Debugf(message);
      case Trace => wrapper.Tracef(message);
    }
    records := handler.records;
  }
}
