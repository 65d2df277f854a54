/**
 * score (src/services/scoring/score.js): the older curried front end. It resolves question ids
 * against the scoring data and hands the questions and the user's answer to a predicate.
 */
module ScoreService {
  import opened Wrappers
  import opened JsArrays
  import opened SumService

  datatype ScoreServiceError =
    | ScoringDataNotArray
    | QuestionNotFound(questionId: string)

  function Message(e: ScoreServiceError): string
  {
    match e
    case ScoringDataNotArray => "scoringData must be an array"
    case QuestionNotFound(id) => "Question with id " + id + " not found in scoringData."
  }

  /** The non-array check throws a `TypeError`; an unknown id throws a plain `Error`. */
  predicate IsTypeError(e: ScoreServiceError)
  {
    e.ScoringDataNotArray?
  }

  ghost predicate FirstWithIdAt(data: seq<LegacyQuestion>, id: string, i: int)
  {
    0 <= i < |data| && data[i].id == id && forall k :: 0 <= k < i ==> data[k].id != id
  }

  ghost predicate NoneWithId(data: seq<LegacyQuestion>, id: string)
  {
    forall k :: 0 <= k < |data| ==> data[k].id != id
  }

  /** `scoringData.find((q) => q.id === questionId)`, as an index. */
  function FindQuestion(data: seq<LegacyQuestion>, id: string): (r: Option<nat>)
    ensures r.Some? ==> FirstWithIdAt(data, id, r.value)
    ensures r.None? <==> NoneWithId(data, id)
  {
    Find(data, (q: LegacyQuestion) => q.id == id)
  }

  /** Every requested id names some question. */
  ghost predicate AllFound(data: seq<LegacyQuestion>, ids: seq<string>)
  {
    forall k :: 0 <= k < |ids| ==> !NoneWithId(data, ids[k])
  }

  /** `ids[k]` is the first requested id that names no question. */
  ghost predicate FirstMissingAt(data: seq<LegacyQuestion>, ids: seq<string>, k: int)
  {
    0 <= k < |ids| && NoneWithId(data, ids[k]) && forall j :: 0 <= j < k ==> !NoneWithId(data, ids[j])
  }

  /** `qs` holds, for each requested id in order, the first question with that id. */
  ghost predicate ResolvedAs(data: seq<LegacyQuestion>, ids: seq<string>, qs: seq<LegacyQuestion>)
  {
    |qs| == |ids| && forall k, i :: 0 <= k < |ids| && FirstWithIdAt(data, ids[k], i) ==> qs[k] == data[i]
  }

  /** `questionIds.map(...)` whose callback throws for an unknown id: the first unknown id in order aborts. */
  function ResolveQuestions(data: seq<LegacyQuestion>, ids: seq<string>): (r: Result<seq<LegacyQuestion>, ScoreServiceError>)
    ensures r.Ok? <==> AllFound(data, ids)
    ensures r.Ok? ==> ResolvedAs(data, ids, r.value)
    ensures forall k :: FirstMissingAt(data, ids, k) ==> r == Err(QuestionNotFound(ids[k]))
  {
    if ids == [] then Ok([])
    else
      match FindQuestion(data, ids[0])
      case None => Err(QuestionNotFound(ids[0]))
      case Some(i) =>
        FoundHead(data, ids);
        match ResolveQuestions(data, ids[1..])
        case Err(e) => Err(e)
        case Ok(rest) =>
          ResolvedCons(data, ids, i, rest);
          Ok([data[i]] + rest)
  }

  /** When the first id is found, the rest of the ids decide whether all are found and which is first missing. */
  lemma FoundHead(data: seq<LegacyQuestion>, ids: seq<string>)
    requires ids != [] && !NoneWithId(data, ids[0])
    ensures AllFound(data, ids) <==> AllFound(data, ids[1..])
    ensures forall k :: FirstMissingAt(data, ids, k) ==> k > 0 && FirstMissingAt(data, ids[1..], k - 1)
  {
    if AllFound(data, ids[1..]) {
      forall k | 0 <= k < |ids|
        ensures !NoneWithId(data, ids[k])
      {
        if k > 0 {
          assert ids[k] == ids[1..][k - 1];
        }
      }
    }
    forall k | FirstMissingAt(data, ids, k)
      ensures k > 0 && FirstMissingAt(data, ids[1..], k - 1)
    {
      forall j | 0 <= j < k - 1
        ensures !NoneWithId(data, ids[1..][j])
      {
        assert ids[1..][j] == ids[j + 1];
      }
    }
  }

  /** Resolving the first id to its first question and the rest to theirs resolves all ids. */
  lemma ResolvedCons(data: seq<LegacyQuestion>, ids: seq<string>, i: nat, rest: seq<LegacyQuestion>)
    requires ids != [] && FirstWithIdAt(data, ids[0], i) && ResolvedAs(data, ids[1..], rest)
    ensures ResolvedAs(data, ids, [data[i]] + rest)
  {
    var r := [data[i]] + rest;
    forall k, j | 0 <= k < |ids| && FirstWithIdAt(data, ids[k], j)
      ensures r[k] == data[j]
    {
      if k > 0 {
        assert FirstWithIdAt(data, ids[1..][k - 1], j);
      }
    }
  }

  /**
   * `score(scoringData)(...questionIds)(answer)(predicate)` with every stage applied: the
   * predicate (`evaluate`) sees the resolved questions, in the order of the ids, and the answer unchanged.
   */
  function Score<A, R>(scoringData: Arg<LegacyQuestion>, questionIds: seq<string>, answer: A, evaluate: (seq<LegacyQuestion>, A) -> R)
    : (r: Result<R, ScoreServiceError>)
    ensures scoringData.NotArray? ==> r == Err(ScoringDataNotArray)
    ensures scoringData.Array? ==>
      && (r.Ok? <==> AllFound(scoringData.items, questionIds))
      && (forall k :: FirstMissingAt(scoringData.items, questionIds, k) ==> r == Err(QuestionNotFound(questionIds[k])))
    ensures r.Ok? ==>
      && scoringData.Array?
      && ResolveQuestions(scoringData.items, questionIds).Ok?
      && r.value == evaluate(ResolveQuestions(scoringData.items, questionIds).value, answer)
  {
    match scoringData
    case NotArray(_) => Err(ScoringDataNotArray)
    case Array(data) =>
      match ResolveQuestions(data, questionIds)
      case Err(e) => Err(e)
      case Ok(questions) => Ok(evaluate(questions, answer))
  }

  /** When some id is unknown, some id is the first unknown one. */
  lemma {:induction false} FirstMissingExists(data: seq<LegacyQuestion>, ids: seq<string>)
    requires !AllFound(data, ids)
    ensures exists k :: FirstMissingAt(data, ids, k)
  {
    if NoneWithId(data, ids[0]) {
      assert FirstMissingAt(data, ids, 0);
    } else {
      FirstMissingExists(data, ids[1..]);
      var k :| FirstMissingAt(data, ids[1..], k);
      assert FirstMissingAt(data, ids, k + 1);
    }
  }

  /** Every failure of the id stage names one of the requested ids. */
  lemma ResolveErrorNamesRequestedId(data: seq<LegacyQuestion>, ids: seq<string>)
    requires ResolveQuestions(data, ids).Err?
    ensures ResolveQuestions(data, ids).error.QuestionNotFound?
    ensures ResolveQuestions(data, ids).error.questionId in ids
  {
    FirstMissingExists(data, ids);
  }

  /** Each resolved question carries the id it was requested by. */
  lemma ResolvedIdsMatch(data: seq<LegacyQuestion>, ids: seq<string>)
    requires ResolveQuestions(data, ids).Ok?
    ensures forall k :: 0 <= k < |ids| ==> ResolveQuestions(data, ids).value[k].id == ids[k]
  {
    var r := ResolveQuestions(data, ids).value;
    forall k | 0 <= k < |ids|
      ensures r[k].id == ids[k]
    {
      var i := FindQuestion(data, ids[k]);
      assert FirstWithIdAt(data, ids[k], i.value);
    }
  }

  /**
   * Scoring through the front end with `sum` as the predicate (the pairing the older handlers
   * use) adds the picked scores of exactly the requested questions.
   */
  lemma ScoreWithSum(data: seq<LegacyQuestion>, ids: seq<string>, userAnswers: seq<string>)
    requires AllFound(data, ids)
    ensures Score(Array(data), ids, userAnswers, (qs: seq<LegacyQuestion>, u: seq<string>) => Sum(Array(qs), Array(u)))
      == Ok(Sum(Array(ResolveQuestions(data, ids).value), Array(userAnswers)))
  {
  }
}
