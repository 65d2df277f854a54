/**
 * mapToFinalResult (src/api/scoring/mapper/map-to-final-result.js): adds up the per-question
 * scores, finds the configuration's overall band and decides eligibility from the percentage
 * of the maximum score.
 */
module FinalResultMapper {
  import opened Wrappers
  import opened JsArrays
  import opened JsStrings
  import opened ScoringTypes

  /** The scoring result of one question, `{questionId, score: {value, band}}`. */
  datatype RawScore = RawScore(questionId: string, score: ScoreResult)

  /** The configuration fields the mapper reads; an absent number is `None` (`undefined`). */
  datatype ScoringConfig = ScoringConfig(
    questions: seq<Question>,
    scoreBand: seq<Band>,
    maxScore: Option<int>,
    eligibilityPercentageThreshold: Option<int>)

  datatype Status = Eligible | Ineligible

  function StatusText(s: Status): string
  {
    match s
    case Eligible => "Eligible"
    case Ineligible => "Ineligible"
  }

  /** The formatted response: the raw scores unchanged, the total, the status and the band name. */
  datatype FinalResult = FinalResult(answers: seq<RawScore>, score: int, status: Status, scoreBand: string)

  datatype MapperError =
    | RawScoresNotArray
    | BandGap(total: JsNumber)

  /** How JavaScript writes a number into a template string. */
  function NumberText(x: JsNumber): string
  {
    match x
    case Finite(n) => IntToString(n)
    case NaN => "NaN"
  }

  function Message(e: MapperError): string
  {
    match e
    case RawScoresNotArray => "rawScores must be an array"
    case BandGap(total) =>
      "No matching score band found for total score " + NumberText(total) + ". Check configuration for scoreBand gaps."
  }

  /** A `TypeError` is thrown for a non-array; the band gap is a plain `Error`. */
  predicate IsTypeError(e: MapperError)
  {
    e.RawScoresNotArray?
  }

  /** The `value` of every raw score, in order. */
  function Values(rawScores: seq<RawScore>): (r: seq<ScoreValue>)
    ensures |r| == |rawScores|
    ensures forall i :: 0 <= i < |rawScores| ==> r[i] == rawScores[i].score.value
  {
    seq(|rawScores|, i requires 0 <= i < |rawScores| => rawScores[i].score.value)
  }

  /** `maxScore > 0 ? (score / maxScore) * 100 : 0`; an undefined `maxScore` is not `> 0`. */
  function PercentageOf(score: int, maxScore: Option<int>): real
  {
    if maxScore.Some? && maxScore.value > 0 then (score as real / maxScore.value as real) * 100.0 else 0.0
  }

  /** `percentage >= threshold ? 'Eligible' : 'Ineligible'`; an undefined threshold compares false. */
  function StatusOf(percentage: real, threshold: Option<int>): Status
  {
    if threshold.Some? && percentage >= threshold.value as real then Eligible else Ineligible
  }

  function MapToFinalResult(config: ScoringConfig, rawScores: Arg<RawScore>): (r: Result<FinalResult, MapperError>)
    ensures rawScores.NotArray? ==> r == Err(RawScoresNotArray)
    ensures rawScores.Array? ==>
      var total := Total(Values(rawScores.items));
      && (r.Ok? <==> !NoBand(config.scoreBand, NumberOperand(total)))
      && (r.Err? ==> r.error == BandGap(total))
    ensures r.Ok? ==>
      && rawScores.Array?
      && r.value.answers == rawScores.items
      && Undefined !in Values(rawScores.items)
      && r.value.score == PointSum(Values(rawScores.items))
      && (forall j :: FirstBandAt(config.scoreBand, Some(r.value.score), j) ==> r.value.scoreBand == config.scoreBand[j].name)
      && (r.value.status == Eligible <==>
            config.eligibilityPercentageThreshold.Some? &&
            PercentageOf(r.value.score, config.maxScore) >= config.eligibilityPercentageThreshold.value as real)
  {
    match rawScores
    case NotArray(_) => Err(RawScoresNotArray)
    case Array(items) =>
      var total := Total(Values(items));
      TotalIsPointSum(Values(items));
      match FindBand(config.scoreBand, NumberOperand(total))
      case None => Err(BandGap(total))
      case Some(j) =>
        var score := total.n;
        var percentage := PercentageOf(score, config.maxScore);
        Ok(FinalResult(items, score, StatusOf(percentage, config.eligibilityPercentageThreshold), config.scoreBand[j].name))
  }

  /**
   * With a positive maximum, the real-valued test `score / maxScore * 100 >= threshold` is the
   * integer test `100 * score >= threshold * maxScore`: no rounding decides eligibility.
   */
  lemma EligibleIffScaled(score: int, maxScore: int, threshold: int)
    requires maxScore > 0
    ensures StatusOf(PercentageOf(score, Some(maxScore)), Some(threshold)) == Eligible <==> 100 * score >= threshold * maxScore
  {
    var m := maxScore as real;
    var p := (score as real / m) * 100.0;
    assert p * m == 100.0 * score as real;
    if p >= threshold as real {
      assert p * m >= threshold as real * m;
    } else {
      assert p * m < threshold as real * m;
    }
  }

  /** With no positive maximum the percentage is 0, so a positive threshold is never met. */
  lemma NoMaximumIsIneligible(score: int, maxScore: Option<int>, threshold: int)
    requires maxScore.None? || maxScore.value <= 0
    requires threshold > 0
    ensures StatusOf(PercentageOf(score, maxScore), Some(threshold)) == Ineligible
  {
  }

  /** Reordering the raw scores changes neither the total, nor the band, nor the status. */
  lemma MapperPermutation(config: ScoringConfig, a: seq<RawScore>, b: seq<RawScore>)
    requires multiset(a) == multiset(b)
    ensures MapToFinalResult(config, Array(a)).Ok? <==> MapToFinalResult(config, Array(b)).Ok?
    ensures MapToFinalResult(config, Array(a)).Ok? ==>
      var ra, rb := MapToFinalResult(config, Array(a)).value, MapToFinalResult(config, Array(b)).value;
      ra.score == rb.score && ra.status == rb.status && ra.scoreBand == rb.scoreBand
    ensures MapToFinalResult(config, Array(a)).Err? ==> MapToFinalResult(config, Array(a)) == MapToFinalResult(config, Array(b))
  {
    ValuesPermutation(a, b);
    TotalPermutation(Values(a), Values(b));
    var ra, rb := MapToFinalResult(config, Array(a)), MapToFinalResult(config, Array(b));
    if ra.Ok? {
      var j := FindBand(config.scoreBand, Some(ra.value.score));
      assert FirstBandAt(config.scoreBand, Some(ra.value.score), j.value);
    }
  }

  lemma {:induction false} ValuesPermutation(a: seq<RawScore>, b: seq<RawScore>)
    requires multiset(a) == multiset(b)
    ensures multiset(Values(a)) == multiset(Values(b))
  {
    if a != [] {
      assert a[0] in multiset(b);
      var k :| 0 <= k < |b| && b[k] == a[0];
      var rest := b[..k] + b[k + 1..];
      MultisetDropMatch(a, b, k);
      ValuesPermutation(a[1..], rest);
      assert Values(a)[1..] == Values(a[1..]);
      assert Values(b)[..k] + Values(b)[k + 1..] == Values(rest);
      MultisetAddMatch(Values(a), Values(b), k);
    }
  }

  /**
   * A configuration whose overall bands are all percentage bands has no `minValue` to compare
   * with, so every array of raw scores ends in the band-gap error.
   */
  lemma PercentageBandsAlwaysGap(config: ScoringConfig, rawScores: seq<RawScore>)
    requires forall k :: 0 <= k < |config.scoreBand| ==> config.scoreBand[k].Percentage?
    ensures MapToFinalResult(config, Array(rawScores)) == Err(BandGap(Total(Values(rawScores))))
  {
  }

  /** No raw scores at all add up to 0, which takes the first band containing 0. */
  lemma EmptyRawScores(config: ScoringConfig, j: nat)
    requires FirstBandAt(config.scoreBand, Some(0), j)
    ensures MapToFinalResult(config, Array([])).Ok?
    ensures MapToFinalResult(config, Array([])).value.score == 0
    ensures MapToFinalResult(config, Array([])).value.scoreBand == config.scoreBand[j].name
  {
    assert Values([]) == [];
  }
}
