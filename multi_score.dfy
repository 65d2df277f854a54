/** multiScore (src/services/scoring/methods/multi-score.js): the sum of several looked-up scores, banded. */
module MultiScoreMethod {
  import opened Wrappers
  import opened JsArrays
  import opened JsStrings
  import opened ScoringTypes
  import opened ScoringErrors

  /** The answers actually scored: a lone entry is split on commas and deduplicated, a longer list is kept as it is. */
  function SelectedAnswers(userAnswers: seq<string>): seq<string>
  {
    if |userAnswers| == 1 then Dedupe(Split(userAnswers[0], ',')) else userAnswers
  }

  /** The scores the selected answers look up, in order (reference definition). */
  ghost function PickedScores(answers: seq<Answer>, selected: seq<string>): (r: seq<ScoreValue>)
    ensures |r| == |selected|
  {
    seq(|selected|, k requires 0 <= k < |selected| => ScoreOf(answers, selected[k]))
  }

  /** All selected answers are configured answers. */
  ghost predicate AllKnown(answers: seq<Answer>, selected: seq<string>)
  {
    forall k :: 0 <= k < |selected| ==> !NoAnswer(answers, selected[k])
  }

  /** `selected[k]` is the first selected answer that is not configured. */
  ghost predicate FirstUnknownAt(answers: seq<Answer>, selected: seq<string>, k: int)
  {
    0 <= k < |selected| && NoAnswer(answers, selected[k])
    && forall j :: 0 <= j < k ==> !NoAnswer(answers, selected[j])
  }

  /** `selected.map(...)` whose callback throws for an unknown answer: the first unknown one in list order aborts. */
  function LookupScores(answers: seq<Answer>, selected: seq<string>, questionId: string): (r: Result<seq<ScoreValue>, ScoreError>)
    ensures r.Ok? <==> AllKnown(answers, selected)
    ensures r.Ok? ==> r.value == PickedScores(answers, selected)
    ensures forall k :: FirstUnknownAt(answers, selected, k) ==> r == Err(AnswerNotFound(selected[k], questionId))
  {
    if selected == [] then Ok([])
    else
      match FindAnswer(answers, selected[0])
      case None => Err(AnswerNotFound(selected[0], questionId))
      case Some(i) =>
        match LookupScores(answers, selected[1..], questionId)
        case Err(e) =>
          assert forall k :: FirstUnknownAt(answers, selected, k) ==> k > 0 && FirstUnknownAt(answers, selected[1..], k - 1);
          Err(e)
        case Ok(rest) =>
          assert PickedScores(answers, selected) == [answers[i].score] + PickedScores(answers, selected[1..]);
          Ok([answers[i].score] + rest)
  }

  /**
   * The `{value, band}` of a multi-answer question: the sum of the selected answers' scores
   * (null counting 0) and the first band containing it. No containing band is a TypeError.
   */
  function MultiScore(q: Question, userAnswers: seq<string>): (r: Result<ScoreResult, ScoreError>)
    ensures forall k :: FirstUnknownAt(q.answers, SelectedAnswers(userAnswers), k) ==>
      r == Err(AnswerNotFound(SelectedAnswers(userAnswers)[k], q.id))
    ensures r.Ok? ==>
      var picked := PickedScores(q.answers, SelectedAnswers(userAnswers));
      && AllKnown(q.answers, SelectedAnswers(userAnswers))
      && Undefined !in picked
      && r.value.value == Num(PointSum(picked))
      && r.value.band.Some?
      && IsBandOf(q.scoreBand, Some(PointSum(picked)), r.value.band)
    ensures AllKnown(q.answers, SelectedAnswers(userAnswers)) ==>
      var picked := PickedScores(q.answers, SelectedAnswers(userAnswers));
      (r.Ok? <==> Undefined !in picked && !NoBand(q.scoreBand, Some(PointSum(picked))))
    ensures r.Err? && r.error != NoBandForSum ==> r.error.AnswerNotFound? && r.error.questionId == q.id
    ensures AllKnown(q.answers, SelectedAnswers(userAnswers)) && r.Err? ==> r.error == NoBandForSum
  {
    var selected := SelectedAnswers(userAnswers);
    match LookupScores(q.answers, selected, q.id)
    case Err(e) =>
      assert exists k :: FirstUnknownAt(q.answers, selected, k) by {
        FirstUnknownExists(q.answers, selected);
      }
      Err(e)
    case Ok(scores) =>
      var value := Total(scores);
      TotalIsPointSum(scores);
      match FindBand(q.scoreBand, NumberOperand(value))
      case None => Err(NoBandForSum)
      case Some(j) => Ok(ScoreResult(Num(value.n), Some(q.scoreBand[j].name)))
  }

  /** When not every answer is known, some answer is the first unknown one. */
  lemma {:induction false} FirstUnknownExists(answers: seq<Answer>, selected: seq<string>)
    requires !AllKnown(answers, selected)
    ensures exists k :: FirstUnknownAt(answers, selected, k)
  {
    if NoAnswer(answers, selected[0]) {
      assert FirstUnknownAt(answers, selected, 0);
    } else {
      FirstUnknownExists(answers, selected[1..]);
      var k :| FirstUnknownAt(answers, selected[1..], k);
      assert FirstUnknownAt(answers, selected, k + 1);
    }
  }

  /** The result depends on the user answers only through the answers they select. */
  lemma SameSelectionSameScore(q: Question, u: seq<string>, v: seq<string>)
    requires SelectedAnswers(u) == SelectedAnswers(v)
    ensures MultiScore(q, u) == MultiScore(q, v)
  {
  }

  /** A list of parts without duplicates other than a lone entry selects itself. */
  lemma PartsSelectThemselves(entry: string)
    ensures SelectedAnswers(Dedupe(Split(entry, ','))) == Dedupe(Split(entry, ','))
  {
    var parts := Dedupe(Split(entry, ','));
    if |parts| == 1 {
      var t := parts[0];
      assert t in Split(entry, ',');
      assert ',' !in t;
      SplitWithoutSeparator(t, ',');
      DedupeDistinct([t]);
      assert parts == [t];
    }
  }

  /** Scoring a lone comma-separated entry is scoring its distinct parts: `['A,C']` scores as `['A', 'C']`. */
  lemma SplitEntryScoresAsParts(q: Question, entry: string)
    ensures MultiScore(q, [entry]) == MultiScore(q, Dedupe(Split(entry, ',')))
  {
    PartsSelectThemselves(entry);
    SameSelectionSameScore(q, [entry], Dedupe(Split(entry, ',')));
  }

  lemma PickedScoresRemove(answers: seq<Answer>, b: seq<string>, k: nat)
    requires k < |b|
    ensures PickedScores(answers, b[..k] + b[k + 1..])
      == PickedScores(answers, b)[..k] + PickedScores(answers, b)[k + 1..]
  {
  }

  /** Looking up a permuted list picks a permuted list of scores. */
  lemma {:induction false} PickedScoresPermutation(answers: seq<Answer>, a: seq<string>, b: seq<string>)
    requires multiset(a) == multiset(b)
    ensures multiset(PickedScores(answers, a)) == multiset(PickedScores(answers, b))
  {
    if a != [] {
      assert a[0] in multiset(b);
      var k :| 0 <= k < |b| && b[k] == a[0];
      MultisetDropMatch(a, b, k);
      PickedScoresPermutation(answers, a[1..], b[..k] + b[k + 1..]);
      var pa, pb := PickedScores(answers, a), PickedScores(answers, b);
      PickedScoresRemove(answers, b, k);
      PickedScoresRemove(answers, a, 0);
      assert a[..0] + a[1..] == a[1..];
      assert pa[..0] + pa[1..] == pa[1..];
      MultisetAddMatch(pa, pb, k);
    }
  }

  /** Reordering a list of two or more answers changes neither the outcome kind nor the result. */
  lemma MultiScorePermutation(q: Question, a: seq<string>, b: seq<string>)
    requires |a| >= 2 && multiset(a) == multiset(b)
    ensures MultiScore(q, a).Ok? <==> MultiScore(q, b).Ok?
    ensures MultiScore(q, a).Ok? ==> MultiScore(q, a) == MultiScore(q, b)
  {
    assert |b| == |a|;
    assert SelectedAnswers(a) == a && SelectedAnswers(b) == b;
    forall x ensures x in a <==> x in b {
      assert x in a <==> x in multiset(a);
      assert x in b <==> x in multiset(b);
    }
    assert AllKnown(q.answers, a) <==> AllKnown(q.answers, b) by {
      if AllKnown(q.answers, a) {
        forall k | 0 <= k < |b| ensures !NoAnswer(q.answers, b[k]) {
          assert b[k] in a;
          var j :| 0 <= j < |a| && a[j] == b[k];
        }
      }
      if AllKnown(q.answers, b) {
        forall k | 0 <= k < |a| ensures !NoAnswer(q.answers, a[k]) {
          assert a[k] in b;
          var j :| 0 <= j < |b| && b[j] == a[k];
        }
      }
    }
    var pa, pb := PickedScores(q.answers, a), PickedScores(q.answers, b);
    PickedScoresPermutation(q.answers, a, b);
    PointSumPermutation(pa, pb);
    assert Undefined in pa <==> Undefined in multiset(pa);
    assert Undefined in pb <==> Undefined in multiset(pb);
  }

  /**
   * multiScore as its `?? null` fallback evidently meant it (`find(...)?.name ?? null`): a sum
   * outside every band is reported with a null band, as singleScore does, instead of a TypeError.
   * A sum made NaN by a missing configured score still has no number to report and still fails.
   */
  function MultiScoreOrNullBand(q: Question, userAnswers: seq<string>): (r: Result<ScoreResult, ScoreError>)
    ensures forall k :: FirstUnknownAt(q.answers, SelectedAnswers(userAnswers), k) ==>
      r == Err(AnswerNotFound(SelectedAnswers(userAnswers)[k], q.id))
    ensures AllKnown(q.answers, SelectedAnswers(userAnswers)) ==>
      var picked := PickedScores(q.answers, SelectedAnswers(userAnswers));
      (r.Ok? <==> Undefined !in picked)
    ensures r.Ok? ==>
      var picked := PickedScores(q.answers, SelectedAnswers(userAnswers));
      && r.value.value == Num(PointSum(picked))
      && IsBandOf(q.scoreBand, Some(PointSum(picked)), r.value.band)
  {
    var selected := SelectedAnswers(userAnswers);
    match LookupScores(q.answers, selected, q.id)
    case Err(e) => Err(e)
    case Ok(scores) =>
      var value := Total(scores);
      TotalIsPointSum(scores);
      match value
      case NaN => Err(NoBandForSum)
      case Finite(n) =>
        match FindBand(q.scoreBand, Some(n))
        case None => Ok(ScoreResult(Num(n), None))
        case Some(j) => Ok(ScoreResult(Num(n), Some(q.scoreBand[j].name)))
  }

  /** Wherever multiScore as written succeeds, the corrected version gives the same result. */
  lemma CorrectionKeepsSuccesses(q: Question, userAnswers: seq<string>)
    requires MultiScore(q, userAnswers).Ok?
    ensures MultiScoreOrNullBand(q, userAnswers) == MultiScore(q, userAnswers)
  {
    var picked := PickedScores(q.answers, SelectedAnswers(userAnswers));
    var x := Some(PointSum(picked));
    var j := FindBand(q.scoreBand, x);
    assert j.Some?;
    assert MultiScore(q, userAnswers).value.band == Some(q.scoreBand[j.value].name);
    assert MultiScoreOrNullBand(q, userAnswers).value.band == Some(q.scoreBand[j.value].name);
  }
}
