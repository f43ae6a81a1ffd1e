/** The process-wide Python logger both handlers write diagnostics to. Only which
    diagnostic was emitted is modelled, not its formatted text or traceback. */
module Logging {
  import opened PyJson

  datatype Severity = Critical | Error

  datatype Diagnostic =
    | UnhandledMessageType(eventType: Json)        // delivery logger: type outside the dispatch table
    | CreateLogStreamFailed(stream: string)        // delivery logger: stream creation failed
    | PutLogEventsFailed(stream: string)           // delivery logger: the put was rejected
    | UnknownMessageType(notificationType: Json)   // notification handler: type it cannot store

  function SeverityOf(d: Diagnostic): Severity {
    match d
    case UnhandledMessageType(_) => Critical
    case UnknownMessageType(_) => Critical
    case _ => Error
  }

  class Logger {
    var entries: seq<Diagnostic>

    constructor ()
      ensures entries == []
    {
      entries := [];
    }

    method Log(d: Diagnostic)
      modifies this
      ensures entries == old(entries) + [d]
    {
      entries := entries + [d];
    }
  }
}
