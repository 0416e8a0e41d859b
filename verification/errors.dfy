/** Error handling (server/src/errors.ts): the application error classes
    with their fixed status and code, the global error handler that turns
    anything thrown by a route into a status, a JSON envelope and a log
    entry, and the handler for unknown routes.  The clock reading
    (`timestamp`) and `NODE_ENV == 'development'` (`development`) are
    parameters. */
module Errors {
  import opened Wrappers
  import opened Json
  import opened Text
  import Logger

  /** `Record<string, unknown>`: a value of `None` is a key whose value is
      `undefined`, which counts as a key but is dropped by `JSON.stringify`. */
  type Details = map<string, Option<Value>>

  /** `AppError`: an HTTP status, a message, a machine-readable code and
      optional details. */
  datatype AppError = AppError(statusCode: nat, message: string, code: string, details: Option<Details>)

  /** `new AppError(statusCode, message, code?, details?)`: the code
      defaults to INTERNAL_ERROR. */
  function NewAppError(statusCode: nat, message: string, code: Option<string>, details: Option<Details>): (e: AppError)
    ensures e.statusCode == statusCode && e.message == message && e.details == details
    ensures code.None? ==> e.code == "INTERNAL_ERROR"
    ensures code.Some? ==> e.code == code.value
  {
    AppError(statusCode, message, code.GetOr("INTERNAL_ERROR"), details)
  }

  function ValidationError(message: string, details: Option<Details>): (e: AppError)
    ensures e.statusCode == 400 && e.code == "VALIDATION_ERROR"
    ensures e.message == message && e.details == details
  {
    NewAppError(400, message, Some("VALIDATION_ERROR"), details)
  }

  /** `<resource> (<id>) not found`, or `<resource> not found` when the id
      is absent or empty. */
  function NotFoundMessage(resource: string, id: Option<string>): (m: string)
    ensures resource <= m
    ensures (id.None? || id.value == "") ==> m == resource + " not found"
    ensures id.Some? && id.value != "" ==> m == resource + " (" + id.value + ") not found"
  {
    resource + (if id.Some? && id.value != "" then " (" + id.value + ")" else "") + " not found"
  }

  function NotFoundError(resource: string, id: Option<string>): (e: AppError)
    ensures e.statusCode == 404 && e.code == "NOT_FOUND" && e.details.None?
    ensures e.message == NotFoundMessage(resource, id)
  {
    NewAppError(404, NotFoundMessage(resource, id), Some("NOT_FOUND"), None)
  }

  function RateLimitError(retryAfter: int): (e: AppError)
    ensures e.statusCode == 429 && e.code == "RATE_LIMIT_EXCEEDED" && e.message == "Too many requests"
    ensures e.details == Some(map["retryAfter" := Some(Num(retryAfter))])
  {
    NewAppError(429, "Too many requests", Some("RATE_LIMIT_EXCEEDED"), Some(map["retryAfter" := Some(Num(retryAfter))]))
  }

  /** The default message applies only when the argument is omitted. */
  function ServiceUnavailableError(message: Option<string>): (e: AppError)
    ensures e.statusCode == 503 && e.code == "SERVICE_UNAVAILABLE" && e.details.None?
    ensures e.message == message.GetOr("Service temporarily unavailable")
  {
    NewAppError(503, message.GetOr("Service temporarily unavailable"), Some("SERVICE_UNAVAILABLE"), None)
  }

  function AIServiceError(message: Option<string>): (e: AppError)
    ensures e.statusCode == 502 && e.code == "AI_SERVICE_ERROR" && e.details.None?
    ensures e.message == message.GetOr("AI service error")
  {
    NewAppError(502, message.GetOr("AI service error"), Some("AI_SERVICE_ERROR"), None)
  }

  /** Anything a route can throw: an `AppError` (any subclass), or another
      `Error` seen through its `name`, its `code` property, its message,
      its stack and its own enumerable properties. */
  datatype Thrown =
    | App(error: AppError, stack: Option<string>)
    | Foreign(name: string, code: Option<string>, message: string, stack: Option<string>, properties: map<string, Value>)

  /** The four fields the handler derives from a thrown value. */
  datatype Classified = Classified(statusCode: nat, code: string, message: string, details: Option<Details>)

  /** `(err as any).issues` of a ZodError, `undefined` when missing. */
  function Issues(properties: map<string, Value>): Option<Value> {
    if "issues" in properties then Some(properties["issues"]) else None
  }

  /** `errorHandler`'s classification, tried in this order: application
      errors keep their own fields, then a ZodError, then a refused
      connection, then a generic internal error. */
  function Classify(t: Thrown): (c: Classified)
    ensures t.App? ==> c == Classified(t.error.statusCode, t.error.code, t.error.message, t.error.details)
    ensures t.Foreign? && t.name == "ZodError" ==>
      c == Classified(400, "VALIDATION_ERROR", "Invalid request data", Some(map["issues" := Issues(t.properties)]))
    ensures t.Foreign? && t.name != "ZodError" && t.code == Some("ECONNREFUSED") ==>
      c == Classified(503, "SERVICE_UNAVAILABLE", "External service unavailable", None)
    ensures t.Foreign? && t.name != "ZodError" && t.code != Some("ECONNREFUSED") ==>
      c == Classified(500, "INTERNAL_ERROR", "An unexpected error occurred", None)
  {
    match t
    case App(e, _) => Classified(e.statusCode, e.code, e.message, e.details)
    case Foreign(name, code, _, _, properties) =>
      if name == "ZodError" then
        Classified(400, "VALIDATION_ERROR", "Invalid request data", Some(map["issues" := Issues(properties)]))
      else if code == Some("ECONNREFUSED") then
        Classified(503, "SERVICE_UNAVAILABLE", "External service unavailable", None)
      else
        Classified(500, "INTERNAL_ERROR", "An unexpected error occurred", None)
  }

  /** Errors the application did not raise itself never reveal their own
      message: they get one of three fixed statuses, and only a ZodError
      carries details. */
  lemma ForeignErrorsAreMasked(t: Thrown)
    requires t.Foreign?
    ensures var c := Classify(t);
      && (c.statusCode == 400 || c.statusCode == 503 || c.statusCode == 500)
      && (c.details.Some? <==> t.name == "ZodError")
      && c.message in {"Invalid request data", "External service unavailable", "An unexpected error occurred"}
  {
  }

  /** Each application error class keeps its status and code through the
      handler. */
  lemma AppErrorClasses(message: string, details: Option<Details>, resource: string, id: Option<string>, retryAfter: int, stack: Option<string>)
    ensures Classify(App(ValidationError(message, details), stack)).statusCode == 400
    ensures Classify(App(NotFoundError(resource, id), stack)).code == "NOT_FOUND"
    ensures Classify(App(RateLimitError(retryAfter), stack)).statusCode == 429
    ensures Classify(App(ServiceUnavailableError(None), stack)).statusCode == 503
    ensures Classify(App(AIServiceError(None), stack)).statusCode == 502
    ensures Classify(App(NewAppError(500, message, None, None), stack)).code == "INTERNAL_ERROR"
  {
  }

  /** `statusCode >= 500 ? 'error' : 'warn'`. */
  function LogLevelFor(statusCode: nat): (l: Logger.Level)
    ensures l == Logger.Error <==> statusCode >= 500
    ensures l == Logger.Warn <==> statusCode < 500
  {
    if statusCode >= 500 then Logger.Error else Logger.Warn
  }

  /** `req.requestId || 'unknown'`. */
  function RequestIdOrUnknown(requestId: Option<string>): (r: string)
    ensures r != ""
    ensures requestId.Some? && requestId.value != "" ==> r == requestId.value
  {
    if requestId.Some? && requestId.value != "" then requestId.value else "unknown"
  }

  /** `Error <status>: <message>`. */
  function LogMessage(c: Classified): string {
    "Error " + NatToString(c.statusCode) + ": " + c.message
  }

  /** The structured context of the log entry; a foreign error's stack is
      added when it is defined. */
  function LogContext(t: Thrown, c: Classified, path: string, httpMethod: string, requestId: string): (r: map<string, Value>)
    ensures r.Keys >= {"statusCode", "errorCode", "path", "method", "requestId"}
    ensures "stack" in r <==> t.Foreign? && t.stack.Some?
    ensures r["requestId"] == Str(requestId) && r["statusCode"] == Num(c.statusCode)
  {
    var base := map["statusCode" := Num(c.statusCode), "errorCode" := Str(c.code), "path" := Str(path),
                    "method" := Str(httpMethod), "requestId" := Str(requestId)];
    if t.Foreign? && t.stack.Some? then base["stack" := Str(t.stack.value)] else base
  }

  /** The `error` argument: only errors the application did not raise are
      handed to the logger. */
  function LoggedError(t: Thrown): (r: Option<Logger.ErrorInfo>)
    ensures r.Some? <==> t.Foreign?
  {
    match t
    case App(_, _) => None
    case Foreign(_, _, message, stack, properties) => Some(Logger.ErrorInfo(message, stack, properties))
  }

  /** The entry the handler logs, with message, error, context and request
      id each reaching the logger in its own slot. */
  function LogEntry(t: Thrown, path: string, httpMethod: string, requestId: string, timestamp: string): (e: Logger.Entry)
    ensures e.level == LogLevelFor(Classify(t).statusCode)
    ensures e.context == Some(LogContext(t, Classify(t), path, httpMethod, requestId))
    ensures e.requestId == Some(requestId)
    ensures e.message == "Error " + NatToString(Classify(t).statusCode) + ": " + Classify(t).message
    ensures e.level == Logger.Warn ==> e.error.None?
    ensures e.level == Logger.Error ==> e.error == LoggedError(t)
  {
    var c := Classify(t);
    var level := LogLevelFor(c.statusCode);
    Logger.Entry(timestamp, level, LogMessage(c), Some(LogContext(t, c, path, httpMethod, requestId)),
      if level == Logger.Error then LoggedError(t) else None, Some(requestId))
  }

  /** The entry the source actually produces.  It calls
      `logger[logLevel](message, error, context, requestId)` for both
      levels, but `warn` takes `(message, context, requestId)`: for a
      status below 500 the error lands in the context slot, the context
      object in the request-id slot (printed `[object Object]`), and the
      request id is dropped. */
  function LogEntryAsWritten(t: Thrown, path: string, httpMethod: string, requestId: string, timestamp: string): (e: Logger.Entry)
    ensures e.level == LogLevelFor(Classify(t).statusCode)
    ensures e.level == Logger.Warn ==> e.requestId == Some("[object Object]")
    ensures e.level == Logger.Warn ==> e.context == (if t.Foreign? then Some(t.properties) else None)
  {
    var c := Classify(t);
    var level := LogLevelFor(c.statusCode);
    var context := LogContext(t, c, path, httpMethod, requestId);
    if level == Logger.Error then
      Logger.Entry(timestamp, level, LogMessage(c), Some(context), LoggedError(t), Some(requestId))
    else
      Logger.Entry(timestamp, level, LogMessage(c), if t.Foreign? then Some(t.properties) else None, None,
        Some("[object Object]"))
  }

  /** The two agree on server errors, and differ on every client error: a
      404 for an unknown project is logged without its context and under
      the request id `[object Object]`. */
  lemma WarnSignatureMismatch(t: Thrown, path: string, httpMethod: string, requestId: string, timestamp: string)
    requires requestId != "[object Object]"
    ensures Classify(t).statusCode >= 500 ==>
      LogEntryAsWritten(t, path, httpMethod, requestId, timestamp) == LogEntry(t, path, httpMethod, requestId, timestamp)
    ensures Classify(t).statusCode < 500 ==>
      LogEntryAsWritten(t, path, httpMethod, requestId, timestamp).requestId != Some(requestId)
    ensures t == App(NotFoundError("Project", Some(requestId)), None) ==>
      && LogEntryAsWritten(t, path, httpMethod, requestId, timestamp).context.None?
      && LogEntry(t, path, httpMethod, requestId, timestamp).context.Some?
  {
  }

  /** A JSON object with the defined members of `d`. */
  function DetailsJson(d: Details): (v: Value)
    ensures v.Obj? && v.fields.Keys <= d.Keys
    ensures forall k :: k in d && d[k].Some? ==> k in v.fields && v.fields[k] == d[k].value
  {
    Obj(map k | k in d && d[k].Some? :: d[k].value)
  }

  /** The `error` member of the envelope: message and code, details only
      when defined and non-empty, the stack only in development. */
  function ErrorMember(c: Classified, stack: Option<string>, development: bool): (r: map<string, Value>)
    ensures "message" in r && "code" in r
    ensures r["message"] == Str(c.message) && r["code"] == Str(c.code)
    ensures "details" in r <==> c.details.Some? && |c.details.value| > 0
    ensures "details" in r ==> r["details"] == DetailsJson(c.details.value)
    ensures "stack" in r <==> development && stack.Some? && stack.value != ""
    ensures r.Keys <= {"message", "code", "details", "stack"}
  {
    var base := map["message" := Str(c.message), "code" := Str(c.code)];
    var withDetails := if c.details.Some? && |c.details.value| > 0 then base["details" := DetailsJson(c.details.value)] else base;
    if development && stack.Some? && stack.value != "" then withDetails["stack" := Str(stack.value)] else withDetails
  }

  /** What the error handler sends and logs. */
  datatype Handled = Handled(statusCode: nat, body: Value, log: Logger.Entry)

  /** The envelope `errorHandler` sends. */
  function ErrorBody(t: Thrown, id: string, development: bool, timestamp: string): (v: Value)
    ensures v.Obj? && v.fields.Keys == {"success", "error", "timestamp", "requestId"}
    ensures Member(Some(v), "success") == Some(Bool(false))
    ensures Member(Some(v), "error") == Some(Obj(ErrorMember(Classify(t), t.stack, development)))
    ensures Member(Some(v), "timestamp") == Some(Str(timestamp))
    ensures Member(Some(v), "requestId") == Some(Str(id))
  {
    Obj(map["success" := Bool(false), "error" := Obj(ErrorMember(Classify(t), t.stack, development)),
            "timestamp" := Str(timestamp), "requestId" := Str(id)])
  }

  /** `errorHandler` with the log call corrected: the classified status,
      the four-member envelope (details only when non-empty, the stack only
      in development), and a log entry at the status's level carrying the
      request id and the structured context. */
  function HandleError(t: Thrown, requestId: Option<string>, path: string, httpMethod: string, development: bool, timestamp: string): (h: Handled)
    ensures h.statusCode == Classify(t).statusCode
    ensures h.body.Obj? && h.body.fields.Keys == {"success", "error", "timestamp", "requestId"}
    ensures Member(Some(h.body), "success") == Some(Bool(false))
    ensures Member(Member(Some(h.body), "error"), "message") == Some(Str(Classify(t).message))
    ensures Member(Member(Some(h.body), "error"), "code") == Some(Str(Classify(t).code))
    ensures Member(Member(Some(h.body), "error"), "details").Some? <==>
      Classify(t).details.Some? && |Classify(t).details.value| > 0
    ensures Member(Member(Some(h.body), "error"), "stack").Some? <==>
      development && t.stack.Some? && t.stack.value != ""
    ensures Member(Some(h.body), "timestamp") == Some(Str(timestamp))
    ensures Member(Some(h.body), "requestId") == Some(Str(RequestIdOrUnknown(requestId)))
    ensures h.log.level == Logger.Error <==> h.statusCode >= 500
    ensures h.log.message == "Error " + NatToString(h.statusCode) + ": " + Classify(t).message
    ensures h.log.requestId == Some(RequestIdOrUnknown(requestId))
    ensures h.log.context.Some? && "requestId" in h.log.context.value && "statusCode" in h.log.context.value
    ensures h.log.context.value["requestId"] == Str(RequestIdOrUnknown(requestId))
    ensures h.log.context.value["statusCode"] == Num(h.statusCode)
    ensures h.log.error.Some? <==> h.statusCode >= 500 && t.Foreign?
  {
    var id := RequestIdOrUnknown(requestId);
    var c := Classify(t);
    var body := ErrorBody(t, id, development, timestamp);
    var m := ErrorMember(c, t.stack, development);
    assert Member(Some(body), "error") == Some(Obj(m));
    var log := LogEntry(t, path, httpMethod, id, timestamp);
    assert log.context == Some(LogContext(t, c, path, httpMethod, id));
    Handled(c.statusCode, body, log)
  }

  /** `errorHandler` as written: the same status and envelope, logged
      through `LogEntryAsWritten`, so every client error is logged under
      the request id `[object Object]` instead of its own. */
  function HandleErrorAsWritten(t: Thrown, requestId: Option<string>, path: string, httpMethod: string, development: bool, timestamp: string): (h: Handled)
    ensures var fixed := HandleError(t, requestId, path, httpMethod, development, timestamp);
      && h.statusCode == fixed.statusCode && h.body == fixed.body
      && h.log.level == fixed.log.level && h.log.message == fixed.log.message
    ensures h.statusCode >= 500 ==> h == HandleError(t, requestId, path, httpMethod, development, timestamp)
    ensures h.statusCode < 500 ==> h.log.requestId == Some("[object Object]")
  {
    var id := RequestIdOrUnknown(requestId);
    Handled(Classify(t).statusCode, ErrorBody(t, id, development, timestamp), LogEntryAsWritten(t, path, httpMethod, id, timestamp))
  }

  /** Outside development no stack trace reaches the client, whatever was
      thrown; the envelope never reports success. */
  lemma NoStackOutsideDevelopment(t: Thrown, requestId: Option<string>, path: string, httpMethod: string, timestamp: string)
    ensures var b := HandleError(t, requestId, path, httpMethod, false, timestamp).body;
      && Member(Some(b), "success") == Some(Bool(false))
      && Member(Member(Some(b), "error"), "stack").None?
  {
  }

  /** A rejected rate-limited request answers 429 with the retry delay in
      the details; validation errors answer 400 with their issues. */
  lemma RateLimitEnvelope(retryAfter: int, requestId: Option<string>, path: string, httpMethod: string, development: bool, timestamp: string)
    ensures var h := HandleError(App(RateLimitError(retryAfter), None), requestId, path, httpMethod, development, timestamp);
      && h.statusCode == 429
      && Member(Member(Some(h.body), "error"), "details") == Some(Obj(map["retryAfter" := Num(retryAfter)]))
      && h.log.level == Logger.Warn
  {
    var e := RateLimitError(retryAfter);
    var h := HandleError(App(e, None), requestId, path, httpMethod, development, timestamp);
    var m := ErrorMember(Classify(App(e, None)), None, development);
    assert m["details"] == Obj(map["retryAfter" := Num(retryAfter)]) by {
      var d: Details := map["retryAfter" := Some(Num(retryAfter))];
      assert DetailsJson(d).fields == map["retryAfter" := Num(retryAfter)];
    }
    assert Member(Some(h.body), "error") == Some(Obj(m));
  }

  /** `notFoundHandler`: 404 ROUTE_NOT_FOUND naming the method and path,
      logged as a warning with the method and path as context. */
  function RouteNotFound(requestId: Option<string>, httpMethod: string, path: string, timestamp: string): (h: Handled)
    ensures h.statusCode == 404
    ensures Member(Member(Some(h.body), "error"), "code") == Some(Str("ROUTE_NOT_FOUND"))
    ensures Member(Member(Some(h.body), "error"), "message") == Some(Str("Route " + httpMethod + " " + path + " not found"))
    ensures Member(Some(h.body), "requestId") == Some(Str(RequestIdOrUnknown(requestId)))
    ensures h.log.level == Logger.Warn && h.log.requestId == Some(RequestIdOrUnknown(requestId))
    ensures h.log.context == Some(map["method" := Str(httpMethod), "path" := Str(path)])
  {
    var id := RequestIdOrUnknown(requestId);
    Handled(404,
      Obj(map["success" := Bool(false),
              "error" := Obj(map["message" := Str("Route " + httpMethod + " " + path + " not found"),
                                 "code" := Str("ROUTE_NOT_FOUND")]),
              "timestamp" := Str(timestamp), "requestId" := Str(id)]),
      Logger.Entry(timestamp, Logger.Warn, "Route not found: " + httpMethod + " " + path,
        Some(map["method" := Str(httpMethod), "path" := Str(path)]), None, Some(id)))
  }
}
