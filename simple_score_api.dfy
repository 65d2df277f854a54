/**
 * The API layer's older helpers (src/api/scoring/simple-score.js): a curried `score` that
 * collects the requested questions without checking them, and `simpleScore`, the score of one
 * answer of the first question.
 */
module SimpleScoreApi {
  import opened Wrappers
  import opened JsArrays
  import opened ScoringTypes
  import opened SumService
  import opened ScoreService

  /** `scoringData.find((question) => question.id === questionId)`: the question, or `undefined`. */
  function Lookup(data: seq<LegacyQuestion>, id: string): (r: Option<LegacyQuestion>)
    ensures r.None? <==> NoneWithId(data, id)
    ensures forall i :: FirstWithIdAt(data, id, i) ==> r == Some(data[i])
  {
    match FindQuestion(data, id)
    case None => None
    case Some(i) => Some(data[i])
  }

  /** Reference definition of what the collecting loop builds: one lookup per id, in order. */
  function LookupAll(data: seq<LegacyQuestion>, ids: seq<string>): (r: seq<Option<LegacyQuestion>>)
    ensures |r| == |ids|
  {
    seq(|ids|, k requires 0 <= k < |ids| => Lookup(data, ids[k]))
  }

  /**
   * `questionIds.forEach((id) => questionData.push(scoringData.find(...)))`: an unknown id
   * pushes `undefined` instead of failing.
   */
  method CollectQuestions(data: seq<LegacyQuestion>, ids: seq<string>) returns (questionData: seq<Option<LegacyQuestion>>)
    ensures questionData == LookupAll(data, ids)
  {
    questionData := [];
    var k := 0;
    while k < |ids|
      invariant 0 <= k <= |ids|
      invariant questionData == LookupAll(data, ids[..k])
    {
      questionData := questionData + [Lookup(data, ids[k])];
      assert ids[..k + 1] == ids[..k] + [ids[k]];
      k := k + 1;
    }
    assert ids[..k] == ids;
  }

  /** `score(scoringData)(...questionIds)(answer)(predicate)` with every stage applied. */
  method Score<A, R>(scoringData: seq<LegacyQuestion>, questionIds: seq<string>, answer: A,
                     evaluate: (seq<Option<LegacyQuestion>>, A) -> R) returns (r: R)
    ensures r == evaluate(LookupAll(scoringData, questionIds), answer)
  {
    var questionData := CollectQuestions(scoringData, questionIds);
    r := evaluate(questionData, answer);
  }

  /** Where an id is unknown, its slot holds `undefined`; known ids hold their first question. */
  lemma LookupAllSlots(data: seq<LegacyQuestion>, ids: seq<string>, k: nat)
    requires k < |ids|
    ensures LookupAll(data, ids)[k].None? <==> NoneWithId(data, ids[k])
    ensures LookupAll(data, ids)[k].Some? ==> LookupAll(data, ids)[k].value.id == ids[k]
  {
    var r := Lookup(data, ids[k]);
    if r.Some? {
      var i := FindQuestion(data, ids[k]);
      assert FirstWithIdAt(data, ids[k], i.value);
    }
  }

  /**
   * When every id is known, this helper collects the same questions as the service layer's
   * `score`, which throws instead when an id is unknown.
   */
  lemma AgreesWithServiceScore(data: seq<LegacyQuestion>, ids: seq<string>)
    requires AllFound(data, ids)
    ensures ResolveQuestions(data, ids).Ok?
    ensures forall k :: 0 <= k < |ids| ==> LookupAll(data, ids)[k] == Some(ResolveQuestions(data, ids).value[k])
  {
    var resolved := ResolveQuestions(data, ids).value;
    forall k | 0 <= k < |ids|
      ensures LookupAll(data, ids)[k] == Some(resolved[k])
    {
      var i := FindQuestion(data, ids[k]);
      assert FirstWithIdAt(data, ids[k], i.value);
    }
  }

  datatype SimpleScoreError =
    | QuestionsNullish(isNull: bool)
    | NoQuestions
    | AnswersNullish(isNull: bool)
    | FindNotAFunction
    | AnswerNotFound

  /** `"null"` or `"undefined"`, as Node names a nullish receiver. */
  function NullishName(isNull: bool): string
  {
    if isNull then "null" else "undefined"
  }

  /** The `TypeError` each failure raises, in Node's wording. */
  function Message(e: SimpleScoreError): string
  {
    match e
    case QuestionsNullish(isNull) => "Cannot read properties of " + NullishName(isNull) + " (reading '0')"
    case NoQuestions => "Cannot read properties of undefined (reading 'answers')"
    case AnswersNullish(isNull) => "Cannot read properties of " + NullishName(isNull) + " (reading 'find')"
    case FindNotAFunction => "questionScores[0].answers.find is not a function"
    case AnswerNotFound => "Cannot read properties of undefined (reading 'score')"
  }

  /**
   * `questionScores[0].answers.find((a) => a.answer === userAnswer).score`: each property
   * read on `null` or `undefined` and the call of a missing `find` is its own `TypeError`.
   */
  function SimpleScore(questionScores: Arg<LegacyQuestion>, userAnswer: string): (r: Result<ScoreValue, SimpleScoreError>)
    ensures questionScores == NotArray(NullValue) ==> r == Err(QuestionsNullish(true))
    ensures questionScores == NotArray(UndefinedValue) ==> r == Err(QuestionsNullish(false))
    ensures questionScores == NotArray(OtherValue) || questionScores == Array([]) ==> r == Err(NoQuestions)
    ensures questionScores.Array? && questionScores.items != [] ==>
      var answers := questionScores.items[0].answers;
      && (answers == NotArray(NullValue) ==> r == Err(AnswersNullish(true)))
      && (answers == NotArray(UndefinedValue) ==> r == Err(AnswersNullish(false)))
      && (answers == NotArray(OtherValue) ==> r == Err(FindNotAFunction))
      && (answers.Array? ==>
            && (NoAnswer(answers.items, userAnswer) <==> r == Err(AnswerNotFound))
            && (forall i :: FirstAnswerAt(answers.items, userAnswer, i) ==> r == Ok(answers.items[i].score)))
    ensures r.Ok? ==> questionScores.Array? && questionScores.items != [] && questionScores.items[0].answers.Array?
  {
    match questionScores
    case NotArray(NullValue) => Err(QuestionsNullish(true))
    case NotArray(UndefinedValue) => Err(QuestionsNullish(false))
    case NotArray(OtherValue) => Err(NoQuestions)
    case Array(qs) =>
      if qs == [] then Err(NoQuestions)
      else
        match qs[0].answers
        case NotArray(NullValue) => Err(AnswersNullish(true))
        case NotArray(UndefinedValue) => Err(AnswersNullish(false))
        case NotArray(OtherValue) => Err(FindNotAFunction)
        case Array(answers) =>
          match FindAnswer(answers, userAnswer)
          case None => Err(AnswerNotFound)
          case Some(i) => Ok(answers[i].score)
  }

  /** A found answer scores what the reference lookup gives. */
  lemma SimpleScoreIsScoreOf(questionScores: seq<LegacyQuestion>, userAnswer: string)
    requires questionScores != [] && questionScores[0].answers.Array?
    requires !NoAnswer(questionScores[0].answers.items, userAnswer)
    ensures SimpleScore(Array(questionScores), userAnswer) == Ok(ScoreOf(questionScores[0].answers.items, userAnswer))
  {
    var i := FindAnswer(questionScores[0].answers.items, userAnswer);
    assert FirstAnswerAt(questionScores[0].answers.items, userAnswer, i.value);
  }

  /** Picking only the answer at `i`, whose label no other answer repeats, matches exactly its score. */
  lemma {:induction false} MatchedUniqueLabel(answers: seq<Answer>, userAnswer: string, i: nat)
    requires i < |answers| && answers[i].answer == userAnswer
    requires forall k :: 0 <= k < |answers| && k != i ==> answers[k].answer != userAnswer
    ensures Matched(answers, [userAnswer]) == [answers[i].score]
  {
    var init := answers[..|answers| - 1];
    if i == |answers| - 1 {
      NothingMatched(init, [userAnswer]);
    } else {
      MatchedUniqueLabel(init, userAnswer, i);
    }
  }

  /**
   * On a single question whose labels are distinct, `sum` of one answer agrees with
   * `simpleScore` of it: the score as a number, `null` as 0 and `undefined` as NaN.
   */
  lemma SumAgreesWithSimpleScore(q: LegacyQuestion, userAnswer: string, i: nat)
    requires q.answers.Array?
    requires i < |q.answers.items| && q.answers.items[i].answer == userAnswer
    requires forall k :: 0 <= k < |q.answers.items| && k != i ==> q.answers.items[k].answer != userAnswer
    ensures SimpleScore(Array([q]), userAnswer) == Ok(q.answers.items[i].score)
    ensures Sum(Array([q]), Array([userAnswer])) == Ok(Add(Finite(0), q.answers.items[i].score))
  {
    assert FirstAnswerAt(q.answers.items, userAnswer, i);
    MatchedUniqueLabel(q.answers.items, userAnswer, i);
    SumIsPickedTotal([q], [userAnswer]);
    assert [q][..0] == [];
    assert AllMatched([q], [userAnswer]) == [q.answers.items[i].score];
  }

  /** Only the first question is consulted: any questions after it leave the score unchanged. */
  lemma OnlyFirstQuestion(q: LegacyQuestion, rest: seq<LegacyQuestion>, userAnswer: string)
    ensures SimpleScore(Array([q] + rest), userAnswer) == SimpleScore(Array([q]), userAnswer)
  {
    assert ([q] + rest)[0] == q;
  }
}
