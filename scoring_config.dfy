/**
 * The scoring configuration constant of src/config/scoring-config.js, the schema it is
 * validated against at load time, and what the scoring engine does with it.
 */
module ScoringConfigData {
  import opened Wrappers
  import opened JsArrays
  import opened JsStrings
  import opened ScoringTypes
  import opened ScoringErrors
  import opened SingleScoreMethod
  import opened MultiScoreMethod
  import opened FinalResultMapper

  /** `ScoreBands`, the band names the schema accepts. */
  const Weak: string := "Weak"
  const Medium: string := "Medium"
  const Strong: string := "Strong"

  const NoDetails: Details := Details(None, None, None)

  const SingleAnswer: Question := Question(
    "singleAnswer", NoDetails, Single,
    [Answer("A", Num(4)), Answer("B", Num(8)), Answer("None of the above", Null)],
    [Range(Weak, 0, 3), Range(Medium, 4, 7), Range(Strong, 8, 8)],
    Some(8))

  const MultiAnswer: Question := Question(
    "multiAnswer", NoDetails, Multi,
    [Answer("A", Num(4)), Answer("B", Num(4)), Answer("C", Num(2)), Answer("D", Num(2)),
     Answer("E", Num(0)), Answer("None of the above", Null)],
    [Range(Weak, 0, 4), Range(Medium, 5, 8), Range(Strong, 9, 12)],
    Some(12))

  const Config: ScoringConfig := ScoringConfig(
    [SingleAnswer, MultiAnswer],
    [Range(Weak, 0, 8), Range(Medium, 9, 15), Range(Strong, 16, 20)],
    Some(20),
    Some(60))

  /** A band of the schema: one of the three names, with both `minValue` and `maxValue`. */
  predicate ValidBand(b: Band)
  {
    b.Range? && b.name in {Weak, Medium, Strong}
  }

  /**
   * A question of the schema: none of the keys `category`, `fundingPriorities` or `changeLink`,
   * which the schema does not know, its bands valid, its `maxScore` present. A score may be a
   * number, null or absent, since the schema does not require it.
   */
  predicate ValidQuestion(q: Question)
  {
    && q.details == NoDetails
    && (forall k :: 0 <= k < |q.scoreBand| ==> ValidBand(q.scoreBand[k]))
    && q.maxScore.Some?
  }

  /** `scoringDataSchema`: every question and every total band valid, `maxScore` present, threshold in 0..100. */
  predicate SatisfiesSchema(c: ScoringConfig)
  {
    && (forall i :: 0 <= i < |c.questions| ==> ValidQuestion(c.questions[i]))
    && (forall k :: 0 <= k < |c.scoreBand| ==> ValidBand(c.scoreBand[k]))
    && c.maxScore.Some?
    && c.eligibilityPercentageThreshold.Some?
    && 0 <= c.eligibilityPercentageThreshold.value <= 100
  }

  /** The load-time check: the validated value, or an `Error` whose message starts with "Validation failed: ". */
  datatype LoadError = SchemaRejected

  function LoadMessagePrefix(e: LoadError): string
  {
    "Validation failed: "
  }

  function Load(c: ScoringConfig): (r: Result<ScoringConfig, LoadError>)
    ensures r.Ok? <==> SatisfiesSchema(c)
    ensures r.Ok? ==> r.value == c
  {
    if SatisfiesSchema(c) then Ok(c) else Err(SchemaRejected)
  }

  /** The constant satisfies its own schema, so loading the module does not throw. */
  lemma ConfigLoads()
    ensures Load(Config) == Ok(Config)
  {
    assert ValidQuestion(SingleAnswer);
    assert ValidQuestion(MultiAnswer);
  }

  /** The overall maximum is the sum of the question maxima, 8 + 12. */
  lemma MaxScoreIsSumOfQuestionMaxima()
    ensures Config.maxScore.value == SingleAnswer.maxScore.value + MultiAnswer.maxScore.value
  {
  }

  /** Every integer in `lo..hi` lies in exactly one of the bands. */
  ghost predicate Partitions(bands: seq<Band>, lo: int, hi: int)
  {
    forall t :: lo <= t <= hi ==>
      (exists j :: 0 <= j < |bands| && InBand(bands[j], Some(t)))
      && forall j, k :: 0 <= j < k < |bands| ==> !(InBand(bands[j], Some(t)) && InBand(bands[k], Some(t)))
  }

  /** The total bands cover 0..20 without gaps or overlaps. */
  lemma TotalBandsPartition()
    ensures Partitions(Config.scoreBand, 0, Config.maxScore.value)
  {
    forall t | 0 <= t <= 20
      ensures exists j :: 0 <= j < 3 && InBand(Config.scoreBand[j], Some(t))
    {
      if t <= 8 { assert InBand(Config.scoreBand[0], Some(t)); }
      else if t <= 15 { assert InBand(Config.scoreBand[1], Some(t)); }
      else { assert InBand(Config.scoreBand[2], Some(t)); }
    }
  }

  /** Each question's bands cover 0 up to its maximum without gaps or overlaps. */
  lemma QuestionBandsPartition()
    ensures Partitions(SingleAnswer.scoreBand, 0, SingleAnswer.maxScore.value)
    ensures Partitions(MultiAnswer.scoreBand, 0, MultiAnswer.maxScore.value)
  {
    forall t | 0 <= t <= 8
      ensures exists j :: 0 <= j < 3 && InBand(SingleAnswer.scoreBand[j], Some(t))
    {
      if t <= 3 { assert InBand(SingleAnswer.scoreBand[0], Some(t)); }
      else if t <= 7 { assert InBand(SingleAnswer.scoreBand[1], Some(t)); }
      else { assert InBand(SingleAnswer.scoreBand[2], Some(t)); }
    }
    forall t | 0 <= t <= 12
      ensures exists j :: 0 <= j < 3 && InBand(MultiAnswer.scoreBand[j], Some(t))
    {
      if t <= 4 { assert InBand(MultiAnswer.scoreBand[0], Some(t)); }
      else if t <= 8 { assert InBand(MultiAnswer.scoreBand[1], Some(t)); }
      else { assert InBand(MultiAnswer.scoreBand[2], Some(t)); }
    }
  }

  /** Single answer 'B' scores 8, Strong. */
  lemma SingleAnswerB()
    ensures SingleScore(SingleAnswer, ["B"]) == Ok(ScoreResult(Num(8), Some(Strong)))
  {
    assert FirstAnswerAt(SingleAnswer.answers, "B", 1);
    assert FirstBandAt(SingleAnswer.scoreBand, Some(8), 2);
  }

  /** "None of the above" keeps its null score but is banded as 0, Weak. */
  lemma SingleAnswerNone()
    ensures SingleScore(SingleAnswer, ["None of the above"]) == Ok(ScoreResult(Null, Some(Weak)))
  {
    assert FirstAnswerAt(SingleAnswer.answers, "None of the above", 2);
    assert FirstBandAt(SingleAnswer.scoreBand, Some(0), 0);
  }

  /** The scores a list of known multi answers looks up, and its banding, decide the multi-answer result. */
  lemma MultiScoreOf(userAnswers: seq<string>, selected: seq<string>, picked: seq<ScoreValue>, j: nat)
    requires SelectedAnswers(userAnswers) == selected
    requires AllKnown(MultiAnswer.answers, selected)
    requires PickedScores(MultiAnswer.answers, selected) == picked
    requires Undefined !in picked
    requires FirstBandAt(MultiAnswer.scoreBand, Some(PointSum(picked)), j)
    ensures MultiScore(MultiAnswer, userAnswers) == Ok(ScoreResult(Num(PointSum(picked)), Some(MultiAnswer.scoreBand[j].name)))
  {
  }

  /** Multi answers 'A' and 'C' score 4 + 2 = 6, Medium. */
  lemma MultiAnswerAC()
    ensures MultiScore(MultiAnswer, ["A", "C"]) == Ok(ScoreResult(Num(6), Some(Medium)))
  {
    var answers := MultiAnswer.answers;
    assert FirstAnswerAt(answers, "A", 0);
    assert FirstAnswerAt(answers, "C", 2);
    assert PickedScores(answers, ["A", "C"]) == [Num(4), Num(2)];
    assert PointSum([Num(4), Num(2)]) == 6;
    assert FirstBandAt(MultiAnswer.scoreBand, Some(6), 1);
    MultiScoreOf(["A", "C"], ["A", "C"], [Num(4), Num(2)], 1);
  }

  /** `"A,C".split(',')` and `"A,A".split(',')`. */
  lemma SplitPairs()
    ensures Split("A,C", ',') == ["A", "C"]
    ensures Split("A,A", ',') == ["A", "A"]
  {
    SplitWithoutSeparator("A", ',');
    SplitWithoutSeparator("C", ',');
    assert "A,C"[1..] == ",C" && ",C"[1..] == "C";
    assert "A,A"[1..] == ",A" && ",A"[1..] == "A";
    assert Split(",C", ',') == ["", "C"];
    assert Split(",A", ',') == ["", "A"];
  }

  /** The single entry "A,C" is split on the comma and scores as 'A' and 'C'. */
  lemma MultiAnswerCommaList()
    ensures MultiScore(MultiAnswer, ["A,C"]) == Ok(ScoreResult(Num(6), Some(Medium)))
  {
    SplitPairs();
    assert Dedupe(["A", "C"]) == ["A", "C"];
    SplitEntryScoresAsParts(MultiAnswer, "A,C");
    MultiAnswerAC();
  }

  /** The single entry "A,A" is deduplicated: 'A' counts once, 4, Weak. */
  lemma MultiAnswerCommaDuplicate()
    ensures MultiScore(MultiAnswer, ["A,A"]) == Ok(ScoreResult(Num(4), Some(Weak)))
  {
    CommaDuplicateSelected();
    var answers := MultiAnswer.answers;
    assert FirstAnswerAt(answers, "A", 0);
    assert PickedScores(answers, ["A"]) == [Num(4)];
    assert PointSum([Num(4)]) == 4;
    assert FirstBandAt(MultiAnswer.scoreBand, Some(4), 0);
    MultiScoreOf(["A,A"], ["A"], [Num(4)], 0);
  }

  lemma CommaDuplicateSelected()
    ensures SelectedAnswers(["A,A"]) == ["A"]
  {
    SplitPairs();
    assert Dedupe(["A", "A"]) == ["A"];
  }

  /** In a list of two or more, a repeated answer counts every time: 'A' four times is 16, above every band. */
  lemma RepeatedAnswersOverflowBands()
    ensures MultiScore(MultiAnswer, ["A", "A", "A", "A"]) == Err(NoBandForSum)
    ensures MultiScoreOrNullBand(MultiAnswer, ["A", "A", "A", "A"]) == Ok(ScoreResult(Num(16), None))
  {
    var answers := MultiAnswer.answers;
    var selected := ["A", "A", "A", "A"];
    assert FirstAnswerAt(answers, "A", 0);
    assert PickedScores(answers, selected) == [Num(4), Num(4), Num(4), Num(4)];
    assert PointSum([Num(4), Num(4), Num(4), Num(4)]) == 16;
    assert NoBand(MultiAnswer.scoreBand, Some(16));
  }

  lemma PointSumPair(a: ScoreValue, b: ScoreValue)
    ensures PointSum([a, b]) == Points(a) + Points(b)
  {
    assert [b][1..] == [];
    assert PointSum([b]) == Points(b);
    assert [a, b][1..] == [b];
  }

  /** The mapping of raw scores whose values add up to `total`, which lies first in band `j`. */
  lemma MapperOf(config: ScoringConfig, raw: seq<RawScore>, total: int, j: nat)
    requires Total(Values(raw)) == Finite(total)
    requires FirstBandAt(config.scoreBand, Some(total), j)
    ensures MapToFinalResult(config, Array(raw)) ==
      Ok(FinalResult(raw, total, StatusOf(PercentageOf(total, config.maxScore), config.eligibilityPercentageThreshold), config.scoreBand[j].name))
  {
    TotalIsPointSum(Values(raw));
  }

  /** The two question results of 'B' and ['A', 'C'] add up to 14 of 20: band Medium, 70% >= 60%, Eligible. */
  lemma EndToEndEligible()
    ensures
      var raw := [RawScore("singleAnswer", ScoreResult(Num(8), Some(Strong))),
                  RawScore("multiAnswer", ScoreResult(Num(6), Some(Medium)))];
      MapToFinalResult(Config, Array(raw)) == Ok(FinalResult(raw, 14, Eligible, Medium))
  {
    var raw := [RawScore("singleAnswer", ScoreResult(Num(8), Some(Strong))),
                RawScore("multiAnswer", ScoreResult(Num(6), Some(Medium)))];
    var values := Values(raw);
    assert values == [Num(8), Num(6)];
    TotalIsPointSum(values);
    PointSumPair(Num(8), Num(6));
    assert FirstBandAt(Config.scoreBand, Some(14), 1);
    EligibleIffScaled(14, 20, 60);
    MapperOf(Config, raw, 14, 1);
  }

  /** What a successful single-answer score can be: 0 (null), 4 or 8 points. */
  lemma SingleScoreValues(userAnswers: seq<string>)
    requires SingleScore(SingleAnswer, userAnswers).Ok?
    ensures SingleScore(SingleAnswer, userAnswers).value.value in {Num(4), Num(8), Null}
  {
    var i := FindAnswer(SingleAnswer.answers, userAnswers[0]);
    assert FirstAnswerAt(SingleAnswer.answers, userAnswers[0], i.value);
  }

  /** A successful multi-answer score is a number lying in one of the question's bands. */
  lemma MultiValueInSomeBand(q: Question, userAnswers: seq<string>)
    requires MultiScore(q, userAnswers).Ok?
    ensures var v := MultiScore(q, userAnswers).value.value;
      v.Num? && exists k :: 0 <= k < |q.scoreBand| && InBand(q.scoreBand[k], Some(v.n))
  {
    var r := MultiScore(q, userAnswers).value;
    var sum := PointSum(PickedScores(q.answers, SelectedAnswers(userAnswers)));
    assert r.value == Num(sum);
    assert !NoBand(q.scoreBand, Some(sum));
  }

  /** A successful multi-answer score lies in a band, so within 0..12. */
  lemma MultiScoreRange(userAnswers: seq<string>)
    requires MultiScore(MultiAnswer, userAnswers).Ok?
    ensures var v := MultiScore(MultiAnswer, userAnswers).value.value; v.Num? && 0 <= v.n <= 12
  {
    MultiValueInSomeBand(MultiAnswer, userAnswers);
    var v := MultiScore(MultiAnswer, userAnswers).value.value;
    var k :| 0 <= k < |MultiAnswer.scoreBand| && InBand(MultiAnswer.scoreBand[k], Some(v.n));
  }

  /** A single-answer value and a multi-answer value in range always add up to a total with a band. */
  lemma PairHasBand(raw: seq<RawScore>)
    requires |raw| == 2
    requires raw[0].score.value in {Num(4), Num(8), Null}
    requires raw[1].score.value.Num? && 0 <= raw[1].score.value.n <= 12
    ensures MapToFinalResult(Config, Array(raw)).Ok?
  {
    var values := Values(raw);
    TotalIsPointSum(values);
    assert values == [values[0], values[1]];
    PointSumPair(values[0], values[1]);
    var total := PointSum(values);
    assert 0 <= total <= 20;
    TotalBandsPartition();
    var j :| 0 <= j < 3 && InBand(Config.scoreBand[j], Some(total));
    assert !NoBand(Config.scoreBand, Some(total));
  }

  /**
   * Whatever the user answered, once both questions have been scored the total lies in 0..20
   * and the final mapping finds its band: the gap error is unreachable with this configuration.
   */
  lemma ReachableTotalsHaveBand(single: seq<string>, multi: seq<string>)
    requires SingleScore(SingleAnswer, single).Ok? && MultiScore(MultiAnswer, multi).Ok?
    ensures
      var raw := [RawScore("singleAnswer", SingleScore(SingleAnswer, single).value),
                  RawScore("multiAnswer", MultiScore(MultiAnswer, multi).value)];
      MapToFinalResult(Config, Array(raw)).Ok?
  {
    SingleScoreValues(single);
    MultiScoreRange(multi);
    PairHasBand([RawScore("singleAnswer", SingleScore(SingleAnswer, single).value),
                 RawScore("multiAnswer", MultiScore(MultiAnswer, multi).value)]);
  }

  /** An empty list selects nothing: the sum is 0, Weak. */
  lemma MultiAnswerEmpty()
    ensures MultiScore(MultiAnswer, []) == Ok(ScoreResult(Num(0), Some(Weak)))
  {
    assert PickedScores(MultiAnswer.answers, []) == [];
    assert FirstBandAt(MultiAnswer.scoreBand, Some(0), 0);
    MultiScoreOf([], [], [], 0);
  }

  /** 'None of the above' scores null, which adds nothing: 0, Weak. */
  lemma MultiAnswerNoneOfTheAbove()
    ensures MultiScore(MultiAnswer, ["None of the above"]) == Ok(ScoreResult(Num(0), Some(Weak)))
  {
    var t := "None of the above";
    NoneOfTheAboveSelected();
    NoneOfTheAboveIsLast();
    assert ScoreOf(MultiAnswer.answers, t) == Null;
    assert AllKnown(MultiAnswer.answers, [t]);
    assert PickedScores(MultiAnswer.answers, [t]) == [Null];
    assert PointSum([Null]) == 0;
    assert FirstBandAt(MultiAnswer.scoreBand, Some(0), 0);
    MultiScoreOf([t], [t], [Null], 0);
  }

  lemma NoneOfTheAboveSelected()
    ensures SelectedAnswers(["None of the above"]) == ["None of the above"]
  {
    var t := "None of the above";
    assert ',' !in t;
    SplitWithoutSeparator(t, ',');
    DedupeDistinct([t]);
  }

  lemma NoneOfTheAboveIsLast()
    ensures FirstAnswerAt(MultiAnswer.answers, "None of the above", 5)
  {
    var answers := MultiAnswer.answers;
    assert forall k :: 0 <= k < 5 ==> |answers[k].answer| == 1;
  }

  /** As two list entries, 'A' counts twice: 8, Medium (compare the single entry "A,A"). */
  lemma MultiAnswerRepeated()
    ensures MultiScore(MultiAnswer, ["A", "A"]) == Ok(ScoreResult(Num(8), Some(Medium)))
  {
    var answers := MultiAnswer.answers;
    assert FirstAnswerAt(answers, "A", 0);
    assert PickedScores(answers, ["A", "A"]) == [Num(4), Num(4)];
    PointSumPair(Num(4), Num(4));
    assert FirstBandAt(MultiAnswer.scoreBand, Some(8), 1);
    MultiScoreOf(["A", "A"], ["A", "A"], [Num(4), Num(4)], 1);
  }
}
