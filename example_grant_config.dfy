/**
 * The example grant's configuration (src/config/grants/example-grant-config.js): the same two
 * questions with their descriptive fields, and total bands given as percentage ranges.
 */
module ExampleGrantConfig {
  import opened Wrappers
  import opened JsArrays
  import opened ScoringTypes
  import opened ScoringErrors
  import opened SingleScoreMethod
  import opened MultiScoreMethod
  import opened FinalResultMapper
  import ScoringConfigData

  /** The names of src/config/score-bands.js that the configuration uses. */
  const Weak: string := "Weak"
  const Average: string := "Average"
  const Strong: string := "Strong"

  const SingleAnswer: Question := Question(
    "singleAnswer",
    Details(Some("Single answer"),
            Some(["This question is a single answer question", "It's funding priorities are undefined"]),
            Some("/single-answer")),
    Single,
    [Answer("A", Num(4)), Answer("B", Num(8)), Answer("None of the above", Null)],
    [Range(Weak, 0, 3), Range(Average, 4, 7), Range(Strong, 8, 8)],
    Some(8))

  const MultiAnswer: Question := Question(
    "multiAnswer",
    Details(Some("Multi answer"),
            Some(["This question is a multi answer question", "It's funding priorities are well defined"]),
            Some("/multi-answer")),
    Multi,
    [Answer("A", Num(4)), Answer("B", Num(4)), Answer("C", Num(2)), Answer("D", Num(2)),
     Answer("E", Num(0)), Answer("None of the above", Null)],
    [Range(Weak, 0, 4), Range(Average, 5, 8), Range(Strong, 9, 12)],
    Some(12))

  const Config: ScoringConfig := ScoringConfig(
    [SingleAnswer, MultiAnswer],
    [Percentage(Weak, 0, Below(20)), Percentage(Average, 20, Below(50)), Percentage(Strong, 50, Infinity)],
    Some(20),
    None)

  predicate ValidBandName(name: string)
  {
    name in {Weak, Average, Strong}
  }

  /**
   * A question of `scoringConfigSchema`: a change link and absolute bands. A score may be a
   * number, null or absent, since the schema does not require it.
   */
  predicate ValidQuestion(q: Question)
  {
    && q.details.changeLink.Some?
    && (forall k :: 0 <= k < |q.scoreBand| ==> q.scoreBand[k].Range? && ValidBandName(q.scoreBand[k].name))
  }

  /**
   * `scoringConfigSchema`: valid questions, percentage-shaped total bands, a `maxScore`, and no
   * `eligibilityPercentageThreshold`, a key the schema does not know.
   */
  predicate SatisfiesSchema(c: ScoringConfig)
  {
    && (forall i :: 0 <= i < |c.questions| ==> ValidQuestion(c.questions[i]))
    && (forall k :: 0 <= k < |c.scoreBand| ==> c.scoreBand[k].Percentage? && ValidBandName(c.scoreBand[k].name))
    && c.maxScore.Some?
    && c.eligibilityPercentageThreshold.None?
  }

  function Load(c: ScoringConfig): (r: Result<ScoringConfig, ScoringConfigData.LoadError>)
    ensures r.Ok? <==> SatisfiesSchema(c)
    ensures r.Ok? ==> r.value == c
  {
    if SatisfiesSchema(c) then Ok(c) else Err(ScoringConfigData.SchemaRejected)
  }

  /** The constant satisfies its schema, so loading the module does not throw. */
  lemma ConfigLoads()
    ensures Load(Config) == Ok(Config)
  {
    assert ValidQuestion(SingleAnswer);
    assert ValidQuestion(MultiAnswer);
  }

  /** The overall maximum is the sum of the question maxima, 8 + 12. */
  lemma MaxScoreIsSumOfQuestionMaxima()
    ensures Config.maxScore.value == SingleAnswer.maxScore.value + MultiAnswer.maxScore.value
  {
  }

  /** Each question's bands cover 0 up to its maximum without gaps or overlaps. */
  lemma QuestionBandsPartition()
    ensures ScoringConfigData.Partitions(SingleAnswer.scoreBand, 0, SingleAnswer.maxScore.value)
    ensures ScoringConfigData.Partitions(MultiAnswer.scoreBand, 0, MultiAnswer.maxScore.value)
  {
    forall t | 0 <= t <= 8
      ensures exists j :: 0 <= j < 3 && InBand(SingleAnswer.scoreBand[j], Some(t))
    {
      if t <= 3 { assert InBand(SingleAnswer.scoreBand[0], Some(t)); }
      else if t <= 7 { assert InBand(SingleAnswer.scoreBand[1], Some(t)); }
      else { assert InBand(SingleAnswer.scoreBand[2], Some(t)); }
    }
    forall t | 0 <= t <= 12
      ensures exists j :: 0 <= j < 3 && InBand(MultiAnswer.scoreBand[j], Some(t))
    {
      if t <= 4 { assert InBand(MultiAnswer.scoreBand[0], Some(t)); }
      else if t <= 8 { assert InBand(MultiAnswer.scoreBand[1], Some(t)); }
      else { assert InBand(MultiAnswer.scoreBand[2], Some(t)); }
    }
  }

  /** The half-open range `[startPercentage, lessThanPercentage)` a percentage band describes. */
  predicate InPercentageRange(b: Band, p: real)
  {
    b.Percentage? && b.startPercentage as real <= p
    && (b.lessThanPercentage.Infinity? || p < b.lessThanPercentage.bound as real)
  }

  /** The total bands [0,20), [20,50), [50,Infinity) cover every percentage from 0 up, each in exactly one band. */
  lemma PercentageBandsPartition(p: real)
    requires p >= 0.0
    ensures exists j :: 0 <= j < |Config.scoreBand| && InPercentageRange(Config.scoreBand[j], p)
    ensures forall j, k :: 0 <= j < k < |Config.scoreBand| ==>
      !(InPercentageRange(Config.scoreBand[j], p) && InPercentageRange(Config.scoreBand[k], p))
  {
    if p < 20.0 { assert InPercentageRange(Config.scoreBand[0], p); }
    else if p < 50.0 { assert InPercentageRange(Config.scoreBand[1], p); }
    else { assert InPercentageRange(Config.scoreBand[2], p); }
  }

  /**
   * The final mapping compares totals with `minValue`/`maxValue`, which these percentage bands
   * lack, so with this configuration it always ends in the band-gap error.
   */
  lemma TotalAlwaysBandGap(rawScores: seq<RawScore>)
    ensures MapToFinalResult(Config, Array(rawScores)) == Err(BandGap(Total(Values(rawScores))))
  {
    PercentageBandsAlwaysGap(Config, rawScores);
  }

  /** No eligibility threshold is configured, and an undefined threshold is never met. */
  lemma NoThreshold(p: real)
    ensures Config.eligibilityPercentageThreshold.None?
    ensures StatusOf(p, Config.eligibilityPercentageThreshold) == Ineligible
  {
  }

  /** Two answers to the single-answer question are rejected with its id. */
  lemma TwoSingleAnswersRejected()
    ensures SingleScore(SingleAnswer, ["A", "B"]) == Err(MultipleAnswers("singleAnswer"))
    ensures ScoringErrors.Message(MultipleAnswers("singleAnswer")) == "Multiple answers provided for single-answer question: singleAnswer"
  {
  }

  /** An unknown single answer is named in the error, together with the question. */
  lemma UnknownSingleAnswerNamed()
    ensures SingleScore(SingleAnswer, ["NON_EXISTENT_ANSWER"]) == Err(AnswerNotFound("NON_EXISTENT_ANSWER", "singleAnswer"))
  {
    assert NoAnswer(SingleAnswer.answers, "NON_EXISTENT_ANSWER");
  }

  /** An unknown answer among known multi answers is the one named in the error. */
  lemma UnknownMultiAnswerNamed()
    ensures MultiScore(MultiAnswer, ["A", "B", "NON_EXISTENT_ANSWER"]) == Err(AnswerNotFound("NON_EXISTENT_ANSWER", "multiAnswer"))
  {
    var selected := ["A", "B", "NON_EXISTENT_ANSWER"];
    assert SelectedAnswers(selected) == selected;
    assert MultiAnswer.answers[0].answer == "A";
    assert MultiAnswer.answers[1].answer == "B";
    assert NoAnswer(MultiAnswer.answers, "NON_EXISTENT_ANSWER");
    assert FirstUnknownAt(MultiAnswer.answers, selected, 2);
  }
}
