/**
 * The validation failure a route's `failAction` receives, and the formatting both revisions of
 * `scoringFailAction` share (src/api/scoring/fail-action.js, src/api/scoring/failAction.js).
 */
module ValidationDetails {
  import opened Wrappers
  import opened JsStrings

  /** One step of a Joi error path: an object key or an array index. */
  datatype PathKey = Key(name: string) | Index(i: nat)

  /** How `Array.prototype.join` writes one path step. */
  function PathKeyText(k: PathKey): string
  {
    match k
    case Key(name) => name
    case Index(i) => NatToString(i)
  }

  /** `path.join('.')`. */
  function PathText(path: seq<PathKey>): string
  {
    Join(seq(|path|, i requires 0 <= i < |path| => PathKeyText(path[i])), ".")
  }

  /**
   * One entry of `err.details`. `contextDetails` is `context.details` when that is an array
   * (possibly empty, which is still truthy), and `None` when it is absent or not an array.
   */
  datatype ValidationDetail = ValidationDetail(message: string, path: seq<PathKey>, contextDetails: Option<seq<ValidationDetail>>)

  /** The error a failAction receives: a Joi validation error (`isJoi`), or anything else. */
  datatype ThrownError = JoiError(details: seq<ValidationDetail>) | OtherError(description: string)

  /** `statusCodes.badRequest`, HTTP 400 (section 15.5.1 of RFC 9110). */
  const BadRequest: int := 400

  /** The response body `{statusCode, error, message}`. */
  datatype ResponseBody = ResponseBody(statusCode: int, error: string, message: string)

  /** The VALIDATION_ERROR log call's context `{grantType, message}`; `grantType` may be undefined. */
  datatype ValidationLog = ValidationLog(grantType: Option<string>, message: string)

  /**
   * What the handler does: answer with `h.response(body).code(code).takeover()` after logging,
   * or rethrow the error it was given.
   */
  datatype FailOutcome =
    | Takeover(body: ResponseBody, code: int, log: ValidationLog)
    | Rethrow(err: ThrownError)

  /** `'[' + d.path.join('.') + ']: ' + d.message`: an entry of `context.details`, in both revisions. */
  function ContextEntry(d: ValidationDetail): string
  {
    "[" + PathText(d.path) + "]: " + d.message
  }

  /** The entries of a `context.details` array, formatted and joined by ", ". */
  function ContextSegment(entries: seq<ValidationDetail>): string
  {
    Join(seq(|entries|, i requires 0 <= i < |entries| => ContextEntry(entries[i])), ", ")
  }

  /** `Validation failed: ${segments.join(' | ')}`. */
  function FailedMessage(segments: seq<string>): string
  {
    "Validation failed: " + Join(segments, " | ")
  }

  /** The outcome for a Joi error with the given message: a 400 takeover that logs the same message. */
  function Reject(grantType: Option<string>, message: string): (r: FailOutcome)
    ensures r.Takeover? && r.code == BadRequest && r.body == ResponseBody(BadRequest, "Bad Request", message)
    ensures r.log == ValidationLog(grantType, message)
  {
    Takeover(ResponseBody(BadRequest, "Bad Request", message), BadRequest, ValidationLog(grantType, message))
  }
}
