/**
 * sum (src/services/scoring/sum.js): the older scorer that adds, over every question, the
 * scores of the configured answers the user picked.
 */
module SumService {
  import opened Wrappers
  import opened JsArrays
  import opened ScoringTypes

  /** A question of the older scorers, `{id, answers}`; its `answers` need not be an array. */
  datatype LegacyQuestion = LegacyQuestion(id: string, answers: Arg<Answer>)

  datatype SumError =
    | QuestionScoresInvalid
    | UserAnswersInvalid
    | AnswersNotArray

  function Message(e: SumError): string
  {
    match e
    case QuestionScoresInvalid => "Invalid questionScores: must be a non-empty array."
    case UserAnswersInvalid => "Invalid userAnswers: must be an array."
    case AnswersNotArray => "Invalid questionScores format: answers must be an array."
  }

  /** The inner reduce: a left fold adding `answer.score` for each answer the user picked. */
  function QuestionTotal(answers: seq<Answer>, userAnswers: seq<string>): JsNumber
  {
    if answers == [] then Finite(0)
    else
      var acc := QuestionTotal(answers[..|answers| - 1], userAnswers);
      var last := answers[|answers| - 1];
      if last.answer in userAnswers then Add(acc, last.score) else acc
  }

  /** The outer reduce over questions whose answers are all arrays. */
  function QuestionsTotal(questions: seq<LegacyQuestion>, userAnswers: seq<string>): JsNumber
    requires forall k :: 0 <= k < |questions| ==> questions[k].answers.Array?
  {
    if questions == [] then Finite(0)
    else
      var last := questions[|questions| - 1];
      AddNumbers(QuestionsTotal(questions[..|questions| - 1], userAnswers), QuestionTotal(last.answers.items, userAnswers))
  }

  function Sum(questionScores: Arg<LegacyQuestion>, userAnswers: Arg<string>): (r: Result<JsNumber, SumError>)
    ensures (questionScores.NotArray? || questionScores.items == []) ==> r == Err(QuestionScoresInvalid)
    ensures questionScores.Array? && questionScores.items != [] && userAnswers.NotArray? ==> r == Err(UserAnswersInvalid)
    ensures questionScores.Array? && questionScores.items != [] && userAnswers.Array? ==>
      ((exists k :: 0 <= k < |questionScores.items| && questionScores.items[k].answers.NotArray?) <==> r == Err(AnswersNotArray))
  {
    if questionScores.NotArray? || questionScores.items == [] then Err(QuestionScoresInvalid)
    else if userAnswers.NotArray? then Err(UserAnswersInvalid)
    else if exists k :: 0 <= k < |questionScores.items| && questionScores.items[k].answers.NotArray? then Err(AnswersNotArray)
    else Ok(QuestionsTotal(questionScores.items, userAnswers.items))
  }

  /** Reference definition: the scores of the configured answers the user picked, in configuration order. */
  function Matched(answers: seq<Answer>, userAnswers: seq<string>): (r: seq<ScoreValue>)
    ensures |r| <= |answers|
  {
    if answers == [] then []
    else
      var last := answers[|answers| - 1];
      Matched(answers[..|answers| - 1], userAnswers) + (if last.answer in userAnswers then [last.score] else [])
  }

  /** Reference definition: the picked scores of every question, one question after another. */
  function AllMatched(questions: seq<LegacyQuestion>, userAnswers: seq<string>): seq<ScoreValue>
    requires forall k :: 0 <= k < |questions| ==> questions[k].answers.Array?
  {
    if questions == [] then []
    else AllMatched(questions[..|questions| - 1], userAnswers) + Matched(questions[|questions| - 1].answers.items, userAnswers)
  }

  /** `Total` of a concatenation is the JavaScript sum of the two totals. */
  lemma TotalAppend(a: seq<ScoreValue>, b: seq<ScoreValue>)
    ensures Total(a + b) == AddNumbers(Total(a), Total(b))
  {
    TotalIsPointSum(a);
    TotalIsPointSum(b);
    TotalIsPointSum(a + b);
    PointSumAppend(a, b);
    assert Undefined in a + b <==> Undefined in a || Undefined in b by {
      assert multiset(a + b) == multiset(a) + multiset(b);
      assert Undefined in a + b <==> Undefined in multiset(a + b);
      assert Undefined in a <==> Undefined in multiset(a);
      assert Undefined in b <==> Undefined in multiset(b);
    }
  }

  /** The inner fold adds exactly the picked scores. */
  lemma {:induction false} QuestionTotalIsMatched(answers: seq<Answer>, userAnswers: seq<string>)
    ensures QuestionTotal(answers, userAnswers) == Total(Matched(answers, userAnswers))
  {
    if answers != [] {
      var init, last := answers[..|answers| - 1], answers[|answers| - 1];
      QuestionTotalIsMatched(init, userAnswers);
      var m := Matched(init, userAnswers);
      if last.answer in userAnswers {
        assert (m + [last.score])[..|m|] == m;
      } else {
        assert m + [] == m;
      }
    }
  }

  /** The outer fold adds exactly the picked scores of all questions. */
  lemma {:induction false} QuestionsTotalIsAllMatched(questions: seq<LegacyQuestion>, userAnswers: seq<string>)
    requires forall k :: 0 <= k < |questions| ==> questions[k].answers.Array?
    ensures QuestionsTotal(questions, userAnswers) == Total(AllMatched(questions, userAnswers))
  {
    if questions != [] {
      var init, last := questions[..|questions| - 1], questions[|questions| - 1];
      QuestionsTotalIsAllMatched(init, userAnswers);
      QuestionTotalIsMatched(last.answers.items, userAnswers);
      TotalAppend(AllMatched(init, userAnswers), Matched(last.answers.items, userAnswers));
    }
  }

  /**
   * What `sum` computes on well-formed input: NaN if some picked answer has no score,
   * otherwise the picked scores added up with `null` as 0.
   */
  lemma SumIsPickedTotal(questions: seq<LegacyQuestion>, userAnswers: seq<string>)
    requires questions != []
    requires forall k :: 0 <= k < |questions| ==> questions[k].answers.Array?
    ensures Sum(Array(questions), Array(userAnswers)) ==
      Ok(if Undefined in AllMatched(questions, userAnswers) then NaN else Finite(PointSum(AllMatched(questions, userAnswers))))
  {
    QuestionsTotalIsAllMatched(questions, userAnswers);
    TotalIsPointSum(AllMatched(questions, userAnswers));
  }

  lemma {:induction false} MatchedSameAnswers(answers: seq<Answer>, u: seq<string>, v: seq<string>)
    requires forall x :: x in u <==> x in v
    ensures Matched(answers, u) == Matched(answers, v)
  {
    if answers != [] {
      MatchedSameAnswers(answers[..|answers| - 1], u, v);
    }
  }

  lemma {:induction false} AllMatchedSameAnswers(questions: seq<LegacyQuestion>, u: seq<string>, v: seq<string>)
    requires forall k :: 0 <= k < |questions| ==> questions[k].answers.Array?
    requires forall x :: x in u <==> x in v
    ensures AllMatched(questions, u) == AllMatched(questions, v)
  {
    if questions != [] {
      MatchedSameAnswers(questions[|questions| - 1].answers.items, u, v);
      AllMatchedSameAnswers(questions[..|questions| - 1], u, v);
    }
  }

  /**
   * `userAnswers.includes` is only a membership test: the order of the user's answers and
   * any repeats among them do not change the result.
   */
  lemma SumDependsOnlyOnAnswerSet(questionScores: Arg<LegacyQuestion>, u: seq<string>, v: seq<string>)
    requires forall x :: x in u <==> x in v
    ensures Sum(questionScores, Array(u)) == Sum(questionScores, Array(v))
  {
    if questionScores.Array? && questionScores.items != [] {
      var qs := questionScores.items;
      if forall k :: 0 <= k < |qs| ==> qs[k].answers.Array? {
        SumIsPickedTotal(qs, u);
        SumIsPickedTotal(qs, v);
        AllMatchedSameAnswers(qs, u, v);
      }
    }
  }

  lemma {:induction false} NothingMatched(answers: seq<Answer>, userAnswers: seq<string>)
    requires forall k :: 0 <= k < |answers| ==> answers[k].answer !in userAnswers
    ensures Matched(answers, userAnswers) == []
  {
    if answers != [] {
      NothingMatched(answers[..|answers| - 1], userAnswers);
    }
  }

  lemma {:induction false} NothingMatchedAll(questions: seq<LegacyQuestion>, userAnswers: seq<string>)
    requires forall k :: 0 <= k < |questions| ==> questions[k].answers.Array?
    requires forall k, i :: 0 <= k < |questions| && 0 <= i < |questions[k].answers.items| ==>
      questions[k].answers.items[i].answer !in userAnswers
    ensures AllMatched(questions, userAnswers) == []
  {
    if questions != [] {
      NothingMatched(questions[|questions| - 1].answers.items, userAnswers);
      NothingMatchedAll(questions[..|questions| - 1], userAnswers);
    }
  }

  /** When none of the user's answers is configured, the sum is 0. */
  lemma NoMatchIsZero(questions: seq<LegacyQuestion>, userAnswers: seq<string>)
    requires questions != []
    requires forall k :: 0 <= k < |questions| ==> questions[k].answers.Array?
    requires forall k, i :: 0 <= k < |questions| && 0 <= i < |questions[k].answers.items| ==>
      questions[k].answers.items[i].answer !in userAnswers
    ensures Sum(Array(questions), Array(userAnswers)) == Ok(Finite(0))
  {
    NothingMatchedAll(questions, userAnswers);
    SumIsPickedTotal(questions, userAnswers);
  }

  /** The configured answers of the documented example: three crops scored 3, 2 and 1. */
  const CropAnswers: seq<Answer> := [Answer("Protected cropping", Num(3)), Answer("Fruit", Num(2)), Answer("Field-scale crops", Num(1))]

  /** Picking 'Protected cropping' and 'Fruit' sums 3 + 2 = 5. */
  lemma CropExample()
    ensures Sum(Array([LegacyQuestion("", Array(CropAnswers))]), Array(["Protected cropping", "Fruit"])) == Ok(Finite(5))
  {
    var u := ["Protected cropping", "Fruit"];
    var q := LegacyQuestion("", Array(CropAnswers));
    assert CropAnswers[..2] == CropAnswers[..2][..1] + [CropAnswers[1]];
    assert Matched(CropAnswers[..1], u) == [Num(3)];
    assert Matched(CropAnswers[..2], u) == [Num(3), Num(2)];
    assert Matched(CropAnswers, u) == [Num(3), Num(2)];
    assert AllMatched([q], u) == [Num(3), Num(2)];
    SumIsPickedTotal([q], u);
    assert [Num(3), Num(2)][1..] == [Num(2)];
  }
}
