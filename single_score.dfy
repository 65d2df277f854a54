/** singleScore (src/services/scoring/methods/single-score.js): one answer, one lookup, one band. */
module SingleScoreMethod {
  import opened Wrappers
  import opened ScoringTypes
  import opened ScoringErrors

  /**
   * The `{value, band}` of a single-answer question. More than one answer is rejected;
   * an empty list gets past that guard and fails as "not found" for `undefined`.
   */
  function SingleScore(q: Question, userAnswers: seq<string>): (r: Result<ScoreResult, ScoreError>)
    ensures |userAnswers| > 1 ==> r == Err(MultipleAnswers(q.id))
    ensures |userAnswers| == 0 ==> r == Err(AnswerNotFound("undefined", q.id))
    ensures |userAnswers| == 1 && NoAnswer(q.answers, userAnswers[0]) ==>
      r == Err(AnswerNotFound(userAnswers[0], q.id))
    ensures forall i :: |userAnswers| == 1 && FirstAnswerAt(q.answers, userAnswers[0], i) ==>
      r.Ok? && r.value.value == q.answers[i].score
    ensures r.Ok? ==> IsBandOf(q.scoreBand, Operand(r.value.value), r.value.band)
  {
    if |userAnswers| > 1 then Err(MultipleAnswers(q.id))
    else if |userAnswers| == 0 then Err(AnswerNotFound("undefined", q.id))
    else
      match FindAnswer(q.answers, userAnswers[0])
      case None => Err(AnswerNotFound(userAnswers[0], q.id))
      case Some(i) =>
        var value := q.answers[i].score;
        var band := match FindBand(q.scoreBand, Operand(value))
          case None => None
          case Some(j) => Some(q.scoreBand[j].name);
        Ok(ScoreResult(value, band))
  }

  /** The two outcomes are exclusive: an error is never "multiple answers" unless there were several. */
  lemma SingleScoreErrorKinds(q: Question, userAnswers: seq<string>)
    ensures SingleScore(q, userAnswers) == Err(MultipleAnswers(q.id)) <==> |userAnswers| > 1
  {
  }

  /** A null score is reported as null but banded as 0, so it lands in the band that contains 0. */
  lemma NullScoreBandedAsZero(q: Question, answer: string, i: nat, j: nat)
    requires FirstAnswerAt(q.answers, answer, i) && q.answers[i].score == Null
    requires FirstBandAt(q.scoreBand, Some(0), j)
    ensures SingleScore(q, [answer]) == Ok(ScoreResult(Null, Some(q.scoreBand[j].name)))
  {
  }

  /** An undefined score (no such score) is reported as undefined with a null band, not as an error. */
  lemma UndefinedScoreHasNoBand(q: Question, answer: string, i: nat)
    requires FirstAnswerAt(q.answers, answer, i) && q.answers[i].score == Undefined
    ensures SingleScore(q, [answer]) == Ok(ScoreResult(Undefined, None))
  {
  }
}
