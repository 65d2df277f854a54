/**
 * The data the scoring methods work on (src/config/scoring-types.js), with the JavaScript
 * value rules that decide how a score takes part in `+`, `>=` and `<=`.
 */
module ScoringTypes {
  import opened Wrappers
  import opened JsArrays

  /** A configured score: a number, `null` ("None of the above"), or `undefined` (no score present). */
  datatype ScoreValue = Num(n: int) | Null | Undefined

  /** A JavaScript number produced by adding scores: an integer, or NaN once `undefined` was added. */
  datatype JsNumber = Finite(n: int) | NaN

  /**
   * The number a score stands for in a comparison: `null` compares as 0,
   * `undefined` compares false against everything.
   */
  function Operand(v: ScoreValue): Option<int>
  {
    match v
    case Num(n) => Some(n)
    case Null => Some(0)
    case Undefined => None
  }

  function NumberOperand(x: JsNumber): Option<int>
  {
    match x
    case Finite(n) => Some(n)
    case NaN => None
  }

  /** `acc + v`: `null` adds nothing, `undefined` turns the sum into NaN, and NaN absorbs. */
  function Add(acc: JsNumber, v: ScoreValue): JsNumber
  {
    match (acc, v)
    case (NaN, _) => NaN
    case (_, Undefined) => NaN
    case (Finite(a), Num(n)) => Finite(a + n)
    case (Finite(a), Null) => Finite(a)
  }

  /** `a + b` on two numbers. */
  function AddNumbers(a: JsNumber, b: JsNumber): JsNumber
  {
    match (a, b)
    case (Finite(x), Finite(y)) => Finite(x + y)
    case _ => NaN
  }

  /** `values.reduce((total, v) => total + v, 0)`: a left fold starting at 0. */
  function Total(values: seq<ScoreValue>): JsNumber
  {
    if values == [] then Finite(0)
    else Add(Total(values[..|values| - 1]), values[|values| - 1])
  }

  /** What a score contributes to a sum of defined scores: its number, or 0 for null. */
  function Points(v: ScoreValue): int
  {
    match v
    case Num(n) => n
    case _ => 0
  }

  /** Reference sum: the points of every score, added from the right. */
  function PointSum(values: seq<ScoreValue>): int
  {
    if values == [] then 0 else Points(values[0]) + PointSum(values[1..])
  }

  lemma {:induction false} PointSumAppend(a: seq<ScoreValue>, b: seq<ScoreValue>)
    ensures PointSum(a + b) == PointSum(a) + PointSum(b)
  {
    if a == [] {
      assert a + b == b;
    } else {
      assert (a + b)[1..] == a[1..] + b;
      PointSumAppend(a[1..], b);
    }
  }

  /**
   * The left fold equals the reference sum: NaN exactly when some score is `undefined`,
   * otherwise the points added up, with every `null` counting 0.
   */
  lemma {:induction false} TotalIsPointSum(values: seq<ScoreValue>)
    ensures Total(values) == if Undefined in values then NaN else Finite(PointSum(values))
  {
    if values != [] {
      var init, last := values[..|values| - 1], values[|values| - 1];
      assert values == init + [last];
      TotalIsPointSum(init);
      PointSumAppend(init, [last]);
    }
  }

  /** Removing the element at `k` takes its points out of the sum. */
  lemma {:induction false} PointSumRemove(values: seq<ScoreValue>, k: nat)
    requires k < |values|
    ensures PointSum(values) == Points(values[k]) + PointSum(values[..k] + values[k + 1..])
  {
    if k > 0 {
      PointSumRemove(values[1..], k - 1);
      assert values[1..][..k - 1] + values[1..][k..] == (values[..k] + values[k + 1..])[1..];
    } else {
      assert values[..0] + values[1..] == values[1..];
    }
  }

  /** The reference sum does not depend on the order of the scores. */
  lemma {:induction false} PointSumPermutation(a: seq<ScoreValue>, b: seq<ScoreValue>)
    requires multiset(a) == multiset(b)
    ensures PointSum(a) == PointSum(b)
  {
    if a != [] {
      var x := a[0];
      assert x in multiset(b);
      var k :| 0 <= k < |b| && b[k] == x;
      var rest := b[..k] + b[k + 1..];
      MultisetDropMatch(a, b, k);
      PointSumPermutation(a[1..], rest);
      PointSumRemove(b, k);
    }
  }

  /** The sum of scores in JavaScript does not depend on their order. */
  lemma TotalPermutation(a: seq<ScoreValue>, b: seq<ScoreValue>)
    requires multiset(a) == multiset(b)
    ensures Total(a) == Total(b)
  {
    TotalIsPointSum(a);
    TotalIsPointSum(b);
    PointSumPermutation(a, b);
    assert Undefined in a <==> Undefined in multiset(a);
    assert Undefined in b <==> Undefined in multiset(b);
  }

  /** The upper end of a percentage band; the last band may be unbounded (`Infinity`). */
  datatype Limit = Below(bound: int) | Infinity

  /**
   * A named band. `Range` is the absolute `{minValue, maxValue}` shape (both ends inclusive);
   * `Percentage` is the `{startPercentage, lessThanPercentage}` shape of newer configurations.
   */
  datatype Band =
    | Range(name: string, minValue: int, maxValue: int)
    | Percentage(name: string, startPercentage: int, lessThanPercentage: Limit)

  /**
   * `x >= band.minValue && x <= band.maxValue` in JavaScript: a percentage band has no
   * `minValue`, so nothing is in it, and an undefined or NaN operand is in no band.
   */
  predicate InBand(b: Band, x: Option<int>)
  {
    x.Some? && b.Range? && b.minValue <= x.value <= b.maxValue
  }

  ghost predicate FirstBandAt(bands: seq<Band>, x: Option<int>, j: int)
  {
    0 <= j < |bands| && InBand(bands[j], x) && forall k :: 0 <= k < j ==> !InBand(bands[k], x)
  }

  ghost predicate NoBand(bands: seq<Band>, x: Option<int>)
  {
    forall k :: 0 <= k < |bands| ==> !InBand(bands[k], x)
  }

  /** `bands.find(b => x >= b.minValue && x <= b.maxValue)`, as an index. */
  function FindBand(bands: seq<Band>, x: Option<int>): (r: Option<nat>)
    ensures r.Some? ==> FirstBandAt(bands, x, r.value)
    ensures r.None? <==> NoBand(bands, x)
  {
    Find(bands, (b: Band) => InBand(b, x))
  }

  /** `band` is what the band lookup reports for `x`: the first containing band's name, or null if none. */
  ghost predicate IsBandOf(bands: seq<Band>, x: Option<int>, band: Option<string>)
  {
    && (NoBand(bands, x) ==> band == None)
    && (forall j :: FirstBandAt(bands, x, j) ==> band == Some(bands[j].name))
  }

  /** One configured answer of a single- or multi-answer question. */
  datatype Answer = Answer(answer: string, score: ScoreValue)

  ghost predicate FirstAnswerAt(answers: seq<Answer>, text: string, i: int)
  {
    0 <= i < |answers| && answers[i].answer == text
    && forall k :: 0 <= k < i ==> answers[k].answer != text
  }

  ghost predicate NoAnswer(answers: seq<Answer>, text: string)
  {
    forall k :: 0 <= k < |answers| ==> answers[k].answer != text
  }

  /** `answers.find(a => a.answer === text)`, as an index: exact string equality, first match wins. */
  function FindAnswer(answers: seq<Answer>, text: string): (r: Option<nat>)
    ensures r.Some? ==> FirstAnswerAt(answers, text, r.value)
    ensures r.None? <==> NoAnswer(answers, text)
  {
    Find(answers, (a: Answer) => a.answer == text)
  }

  /** Reference definition of the score a user answer looks up: that of the first answer with this text. */
  ghost function ScoreOf(answers: seq<Answer>, text: string): (r: ScoreValue)
    ensures forall i :: FirstAnswerAt(answers, text, i) ==> r == answers[i].score
  {
    if answers == [] then Undefined
    else if answers[0].answer == text then answers[0].score
    else
      var r := ScoreOf(answers[1..], text);
      assert forall i :: FirstAnswerAt(answers, text, i) ==> i > 0 && FirstAnswerAt(answers[1..], text, i - 1);
      r
  }

  /** The scoring strategy a configured question names (`scoreMethod`: singleScore, multiScore or matrixScore). */
  datatype ScoreMethod = Single | Multi | Matrix

  /** The descriptive fields a question carries into the scoring response. */
  datatype Details = Details(category: Option<string>, fundingPriorities: Option<seq<string>>, changeLink: Option<string>)

  /** A configured question. */
  datatype Question = Question(
    id: string,
    details: Details,
    scoreMethod: ScoreMethod,
    answers: seq<Answer>,
    scoreBand: seq<Band>,
    maxScore: Option<int>)

  /** One row of a matrix question: its score is a table keyed by the dependency's answer. */
  datatype MatrixAnswer = MatrixAnswer(answer: string, score: map<string, ScoreValue>)

  /** A question scored by `matrixScore`: `scoreDependency` names the question whose answer picks the column. */
  datatype MatrixQuestion = MatrixQuestion(
    id: string,
    details: Details,
    scoreDependency: string,
    answers: seq<MatrixAnswer>,
    scoreBand: seq<Band>,
    maxScore: Option<int>)

  /** What a scoring method returns for one question: `{value, band}`. */
  datatype ScoreResult = ScoreResult(value: ScoreValue, band: Option<string>)
}
