/** scoringFailAction (src/api/scoring/fail-action.js): the current validation failAction of the scoring route. */
module FailAction {
  import opened Wrappers
  import opened JsStrings
  import opened ValidationDetails

  /** A detail without a `context.details` array: `[${detail.path.join('.')}]: ${detail.message}`. */
  function BasicSegment(d: ValidationDetail): string
  {
    "[" + PathText(d.path) + "]: " + d.message
  }

  /** The text one detail contributes. */
  function Segment(d: ValidationDetail): string
  {
    match d.contextDetails
    case Some(entries) => ContextSegment(entries)
    case None => BasicSegment(d)
  }

  function Segments(details: seq<ValidationDetail>): (r: seq<string>)
    ensures |r| == |details|
    ensures forall i :: 0 <= i < |details| ==> r[i] == Segment(details[i])
  {
    seq(|details|, i requires 0 <= i < |details| => Segment(details[i]))
  }

  /** The `message` the handler builds for a validation error. */
  function ValidationMessage(details: seq<ValidationDetail>): string
  {
    FailedMessage(Segments(details))
  }

  /**
   * A validation error becomes a 400 "Bad Request" takeover whose body and log entry carry the
   * same message; any other error is rethrown unchanged.
   */
  function ScoringFailAction(grantType: Option<string>, err: ThrownError): (r: FailOutcome)
    ensures err.OtherError? ==> r == Rethrow(err)
    ensures err.JoiError? ==>
      && r.Takeover?
      && r.code == BadRequest
      && r.body == ResponseBody(BadRequest, "Bad Request", ValidationMessage(err.details))
      && r.log == ValidationLog(grantType, r.body.message)
  {
    match err
    case JoiError(details) => Reject(grantType, ValidationMessage(details))
    case OtherError(_) => Rethrow(err)
  }

  /** A single detail without context entries reads `Validation failed: [<path>]: <message>`. */
  lemma SingleBasicDetail(d: ValidationDetail)
    requires d.contextDetails.None?
    ensures ValidationMessage([d]) == "Validation failed: [" + PathText(d.path) + "]: " + d.message
  {
    assert Segments([d]) == [BasicSegment(d)];
  }

  /** An empty `context.details` array is truthy, so its detail contributes an empty segment rather than its own path. */
  lemma EmptyContextDetails(d: ValidationDetail)
    requires d.contextDetails == Some([])
    ensures Segment(d) == ""
  {
  }

  /** Every validation message starts with the fixed prefix. */
  lemma MessagePrefix(details: seq<ValidationDetail>)
    ensures |ValidationMessage(details)| >= 19
    ensures ValidationMessage(details)[..19] == "Validation failed: "
  {
  }
}
