/**
 * log (src/api/logging/log.js): checks a log code `{level, event}` and a context object, then
 * hands `{event, ...context}` to the logger of that level.
 */
module Logging {
  import opened Wrappers
  import opened JsValues

  /**
   * The first argument `{level, event} = {}`: an absent argument or an absent field is
   * `undefined`. `LogCodeLevels` is the list of accepted levels; it is a parameter here because
   * src/api/logging/log-codes.js as shown does not define it.
   */
  datatype LogCode = LogCode(level: JsValue, event: JsValue)

  datatype LogError =
    | MissingLogCode
    | InvalidLevel
    | MissingOrInvalid(field: string)
    | LoggerNotAFunction

  function Message(e: LogError): string
  {
    match e
    case MissingLogCode => "Invalid log configuration: Missing or invalid logCode"
    case InvalidLevel => "Invalid log configuration: Invalid logCode level"
    case MissingOrInvalid(field) => "Invalid log configuration: Missing or invalid " + field
    case LoggerNotAFunction => "getLoggerOfType(...) is not a function"
  }

  /** `typeof context !== 'object' || Array.isArray(context)`: null passes, arrays and primitives do not. */
  predicate ContextInvalid(context: JsValue)
  {
    !TypeofObject(context) || context.Array?
  }

  /** The `context = {}` default: an `undefined` context becomes an empty object. */
  function DefaultContext(context: JsValue): JsValue
  {
    if context.Undefined? then Object([]) else context
  }

  /**
   * validateLogParams: a missing code, then an unknown level, then the first of level, event and
   * context (in that order) that is missing or invalid.
   */
  function ValidateLogParams(code: LogCode, context: JsValue, logCodeLevels: seq<JsValue>): (r: Option<LogError>)
    ensures r.None? <==>
      !(code.level.Undefined? && code.event.Undefined?) && code.level in logCodeLevels
      && Truthy(code.level) && Truthy(code.event) && !ContextInvalid(context)
    ensures code.level.Undefined? && code.event.Undefined? ==> r == Some(MissingLogCode)
    ensures !(code.level.Undefined? && code.event.Undefined?) && code.level !in logCodeLevels ==> r == Some(InvalidLevel)
    ensures !(code.level.Undefined? && code.event.Undefined?) && code.level in logCodeLevels && r.Some? ==>
      r.value.MissingOrInvalid?
    ensures r.Some? && r.value.MissingOrInvalid? ==>
      && code.level in logCodeLevels
      && (r.value.field == "level" <==> !Truthy(code.level))
      && (r.value.field == "event" <==> Truthy(code.level) && !Truthy(code.event))
      && (r.value.field == "context" <==> Truthy(code.level) && Truthy(code.event) && ContextInvalid(context))
  {
    if code.level.Undefined? && code.event.Undefined? then Some(MissingLogCode)
    else if code.level !in logCodeLevels then Some(InvalidLevel)
    else if !Truthy(code.level) then Some(MissingOrInvalid("level"))
    else if !Truthy(code.event) then Some(MissingOrInvalid("event"))
    else if ContextInvalid(context) then Some(MissingOrInvalid("context"))
    else None
  }

  /** The three loggers the level table offers. */
  datatype Logger = Info | Debug | Error

  /** `{ info, debug, error }[type]`: any other level finds no logger. */
  function GetLoggerOfType(level: JsValue): (r: Option<Logger>)
    ensures r == Some(Info) <==> level == Str("info")
    ensures r == Some(Debug) <==> level == Str("debug")
    ensures r == Some(Error) <==> level == Str("error")
  {
    match level
    case Str(s) =>
      if s == "info" then Some(Info)
      else if s == "debug" then Some(Debug)
      else if s == "error" then Some(Error)
      else None
    case _ => None
  }

  /** The properties of a spread `null` or primitive context add nothing; an object's are its entries. */
  function SpreadEntries(context: JsValue): seq<(string, JsValue)>
  {
    if context.Object? then context.entries else []
  }

  /** The entries without the one named `key`, in order. */
  function RemoveKey(entries: seq<(string, JsValue)>, key: string): (r: seq<(string, JsValue)>)
    ensures forall i :: 0 <= i < |r| ==> r[i].0 != key && r[i] in entries
    ensures forall e :: e in entries && e.0 != key ==> e in r
  {
    if entries == [] then []
    else if entries[0].0 == key then RemoveKey(entries[1..], key)
    else [entries[0]] + RemoveKey(entries[1..], key)
  }

  predicate HasKey(entries: seq<(string, JsValue)>, key: string)
  {
    exists i :: 0 <= i < |entries| && entries[i].0 == key
  }

  /**
   * `{ event, ...context }`: `event` comes first, and a context property named `event`
   * overwrites its value in place; every other context property follows.
   */
  function LogEntry(event: JsValue, context: JsValue): (r: seq<(string, JsValue)>)
    ensures |r| >= 1 && r[0].0 == "event"
    ensures forall i :: 1 <= i < |r| ==> r[i].0 != "event" && r[i] in SpreadEntries(context)
    ensures forall e :: e in SpreadEntries(context) && e.0 != "event" ==> e in r[1..]
    ensures !HasKey(SpreadEntries(context), "event") ==> r[0].1 == event
    ensures HasKey(SpreadEntries(context), "event") ==> r[0].1 == Property(SpreadEntries(context), "event")
  {
    var c := SpreadEntries(context);
    [("event", if HasKey(c, "event") then Property(c, "event") else event)] + RemoveKey(c, "event")
  }

  /** The logger backend: the entries written so far, each with the logger that wrote it. */
  class LogSink {
    var written: seq<(Logger, seq<(string, JsValue)>)>

    constructor ()
      ensures written == []
    {
      written := [];
    }

    /** `log(code, context)`: throws on invalid parameters or a level without logger, and writes one entry otherwise. */
    method Log(code: LogCode, context: JsValue, logCodeLevels: seq<JsValue>) returns (r: Option<LogError>)
      modifies this
      ensures var ctx := DefaultContext(context);
        r == Outcome(code, ctx, logCodeLevels)
        && (r.None? ==> written == old(written) + [(GetLoggerOfType(code.level).value, LogEntry(code.event, ctx))])
        && (r.Some? ==> written == old(written))
    {
      var ctx := DefaultContext(context);
      r := ValidateLogParams(code, ctx, logCodeLevels);
      if r.None? {
        var logger := GetLoggerOfType(code.level);
        if logger.None? {
          r := Some(LoggerNotAFunction);
        } else {
          written := written + [(logger.value, LogEntry(code.event, ctx))];
        }
      }
    }
  }

  /** Whether and how `log` fails, once the context default is applied. */
  function Outcome(code: LogCode, context: JsValue, logCodeLevels: seq<JsValue>): (r: Option<LogError>)
    ensures r.None? <==> ValidateLogParams(code, context, logCodeLevels).None? && GetLoggerOfType(code.level).Some?
  {
    match ValidateLogParams(code, context, logCodeLevels)
    case Some(e) => Some(e)
    case None => if GetLoggerOfType(code.level).None? then Some(LoggerNotAFunction) else None
  }

  /** `log()` with no arguments is rejected as a missing log code. */
  lemma NoArguments(logCodeLevels: seq<JsValue>)
    ensures Outcome(LogCode(Undefined, Undefined), DefaultContext(Undefined), logCodeLevels) == Some(MissingLogCode)
  {
  }

  /**
   * The codes in src/api/logging/log-codes.js are `{level, messageFunc}` with no `event`, so
   * passing one to `log` never validates: either its level is not accepted or the event is missing.
   */
  lemma CodeWithoutEventRejected(level: string, context: JsValue, logCodeLevels: seq<JsValue>)
    requires level != []
    ensures ValidateLogParams(LogCode(Str(level), Undefined), context, logCodeLevels)
      == if Str(level) in logCodeLevels then Some(MissingOrInvalid("event")) else Some(InvalidLevel)
  {
  }

  /** An accepted level that names no logger, such as `warn`, fails only when the logger is called. */
  lemma AcceptedLevelWithoutLogger(event: string, logCodeLevels: seq<JsValue>)
    requires Str("warn") in logCodeLevels && event != []
    ensures Outcome(LogCode(Str("warn"), Str(event)), Object([]), logCodeLevels) == Some(LoggerNotAFunction)
  {
  }
}
