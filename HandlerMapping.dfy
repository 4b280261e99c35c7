/**
 * The two handler-mapping objects of XmlRpcServerImpl: the plain mapping
 * that owns the table, and the logging mapping the server actually uses,
 * which records each call and then delegates.  A Dafny class cannot extend
 * another class, so the logging mapping holds the plain one and forwards to it.
 */
module HandlerMapping {
  import opened Registry

  /** Log levels the logging mapping writes at. */
  datatype Level = Info | Debug

  /** What a log line reports: the call and the table as it was before the call. */
  datatype LogEvent =
    | AddHandlerCalled(handlerName: string, handler: HandlerObject)
    | RemoveHandlerCalled(handlerName: string)
    | GetHandlerCalled(methodName: string)

  datatype LogRecord = LogRecord(level: Level, event: LogEvent, handlers: Table)

  /** XmlRpcHandlerMappingImpl: a handler table updated in place. */
  class HandlerMappingImpl {
    var handlers: Table

    constructor ()
      ensures handlers == map[]
    {
      handlers := map[];
    }

    /** Stores `handler` itself or an Invoker around it; other names keep their entries. */
    method AddHandler(handlerName: string, handler: HandlerObject)
      modifies this
      ensures handlers == Put(old(handlers), handlerName, handler)
    {
      if handler.isXmlRpcHandler {
        handlers := handlers[handlerName := Native(handler)];
      } else {
        handlers := handlers[handlerName := Invoker(handler)];
      }
    }

    /** Drops the entry for `handlerName`, if any. */
    method RemoveHandler(handlerName: string)
      modifies this
      ensures handlers == Without(old(handlers), handlerName)
    {
      handlers := handlers - {handlerName};
    }

    /** Resolves a remote method name against the current table; reads only. */
    function GetHandler(methodName: string): (r: Result<Entry, NotFound>)
      reads this
      ensures r == Lookup(handlers, methodName)
    {
      Lookup(handlers, methodName)
    }
  }

  /**
   * LoggingDefaultHandlerMapping: every call appends one log record (the
   * call and the table before it) and then does exactly what the plain
   * mapping does.
   */
  class LoggingDefaultHandlerMapping {
    const base: HandlerMappingImpl
    var log: seq<LogRecord>

    constructor ()
      ensures fresh(base) && base.handlers == map[] && log == []
    {
      base := new HandlerMappingImpl();
      log := [];
    }

    method AddHandler(handlerName: string, handler: HandlerObject)
      modifies this, base
      ensures base.handlers == Put(old(base.handlers), handlerName, handler)
      ensures log == old(log) + [LogRecord(Info, AddHandlerCalled(handlerName, handler), old(base.handlers))]
    {
      log := log + [LogRecord(Info, AddHandlerCalled(handlerName, handler), base.handlers)];
      base.AddHandler(handlerName, handler);
    }

    method RemoveHandler(handlerName: string)
      modifies this, base
      ensures base.handlers == Without(old(base.handlers), handlerName)
      ensures log == old(log) + [LogRecord(Debug, RemoveHandlerCalled(handlerName), old(base.handlers))]
    {
      log := log + [LogRecord(Debug, RemoveHandlerCalled(handlerName), base.handlers)];
      base.RemoveHandler(handlerName);
    }

    /** getHandler logs, then resolves; the table is left as it was. */
    method GetHandler(methodName: string) returns (r: Result<Entry, NotFound>)
      modifies this
      ensures r == Lookup(base.handlers, methodName)
      ensures base.handlers == old(base.handlers)
      ensures log == old(log) + [LogRecord(Info, GetHandlerCalled(methodName), base.handlers)]
    {
      log := log + [LogRecord(Info, GetHandlerCalled(methodName), base.handlers)];
      r := base.GetHandler(methodName);
    }
  }
}
