/**
 * The older scoringFailAction (src/api/scoring/failAction.js): a basic detail is written with a
 * space before the colon; with `context.details` the spaced text it builds first is discarded.
 */
module LegacyFailAction {
  import opened Wrappers
  import opened JsStrings
  import opened ValidationDetails
  import FailAction

  /** `[${detail.path.join('.')}] : ${detail.message}`. */
  function BasicSegment(d: ValidationDetail): string
  {
    "[" + PathText(d.path) + "] : " + d.message
  }

  /** The text one detail contributes: the early return uses `]: `, the fall-through `] : `. */
  function Segment(d: ValidationDetail): string
  {
    match d.contextDetails
    case Some(entries) => ContextSegment(entries)
    case None => BasicSegment(d)
  }

  function Segments(details: seq<ValidationDetail>): (r: seq<string>)
    ensures |r| == |details|
    ensures forall i :: 0 <= i < |details| ==> r[i] == Segment(details[i])
  {
    seq(|details|, i requires 0 <= i < |details| => Segment(details[i]))
  }

  function ValidationMessage(details: seq<ValidationDetail>): string
  {
    FailedMessage(Segments(details))
  }

  function ScoringFailAction(grantType: Option<string>, err: ThrownError): (r: FailOutcome)
    ensures err.OtherError? ==> r == Rethrow(err)
    ensures err.JoiError? ==>
      && r.Takeover?
      && r.code == BadRequest
      && r.body == ResponseBody(BadRequest, "Bad Request", ValidationMessage(err.details))
      && r.log == ValidationLog(grantType, r.body.message)
  {
    match err
    case JoiError(details) => Reject(grantType, ValidationMessage(details))
    case OtherError(_) => Rethrow(err)
  }

  /** When every detail carries a `context.details` array, the two revisions answer identically. */
  lemma RevisionsAgreeOnContextDetails(grantType: Option<string>, details: seq<ValidationDetail>)
    requires forall i :: 0 <= i < |details| ==> details[i].contextDetails.Some?
    ensures ScoringFailAction(grantType, JoiError(details)) == FailAction.ScoringFailAction(grantType, JoiError(details))
  {
    assert Segments(details) == FailAction.Segments(details);
  }

  /** Any other error is rethrown by both revisions alike. */
  lemma RevisionsAgreeOnOtherErrors(grantType: Option<string>, description: string)
    ensures ScoringFailAction(grantType, OtherError(description)) == FailAction.ScoringFailAction(grantType, OtherError(description))
  {
  }

  /** A basic detail is where the revisions part: the older one writes `] : `, the newer `]: `. */
  lemma RevisionsDifferOnBasicDetail(d: ValidationDetail)
    requires d.contextDetails.None?
    ensures ValidationMessage([d]) != FailAction.ValidationMessage([d])
  {
    var p := "Validation failed: [" + PathText(d.path);
    assert Segments([d]) == [BasicSegment(d)];
    assert FailAction.Segments([d]) == [FailAction.BasicSegment(d)];
    assert ValidationMessage([d]) == p + "] : " + d.message;
    assert FailAction.ValidationMessage([d]) == p + "]: " + d.message;
    assert ValidationMessage([d])[|p| + 1] == ' ';
    assert FailAction.ValidationMessage([d])[|p| + 1] == ':';
  }
}
