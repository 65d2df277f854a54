/**
 * matrixScore (src/services/scoring/methods/matrix-score.js): the dependency question's first
 * answer picks a column of every row's score table, then the question is scored by singleScore.
 */
module MatrixScoreMethod {
  import opened Wrappers
  import opened ScoringTypes
  import opened ScoringErrors
  import opened SingleScoreMethod

  /**
   * The property key `dependentUserAnswers[dep][0]` yields: the first answer, or, for an empty
   * list, `undefined`, which as a property key is the string "undefined".
   */
  function ColumnKey(dependencyAnswers: seq<string>): string
  {
    if dependencyAnswers == [] then "undefined" else dependencyAnswers[0]
  }

  /** `row.score[column]`: a missing column is `undefined`. */
  function Cell(row: MatrixAnswer, column: string): ScoreValue
  {
    if column in row.score then row.score[column] else Undefined
  }

  ghost predicate FirstRowAt(rows: seq<MatrixAnswer>, text: string, i: int)
  {
    0 <= i < |rows| && rows[i].answer == text && forall k :: 0 <= k < i ==> rows[k].answer != text
  }

  ghost predicate NoRow(rows: seq<MatrixAnswer>, text: string)
  {
    forall k :: 0 <= k < |rows| ==> rows[k].answer != text
  }

  /**
   * `{ ...question, answers: rows.map(({answer, score}) => ({answer, score: score[column]})) }`:
   * the same question with each row's table replaced by its cell in `column`, labels and order kept.
   */
  function WithColumn(q: MatrixQuestion, column: string): (r: Question)
    ensures r.id == q.id && r.details == q.details && r.scoreBand == q.scoreBand && r.maxScore == q.maxScore
    ensures |r.answers| == |q.answers|
    ensures forall i :: 0 <= i < |q.answers| ==> r.answers[i].answer == q.answers[i].answer
    ensures forall i :: 0 <= i < |q.answers| ==> r.answers[i].score == Cell(q.answers[i], column)
  {
    var answers := seq(|q.answers|, i requires 0 <= i < |q.answers| => Answer(q.answers[i].answer, Cell(q.answers[i], column)));
    Question(q.id, q.details, Matrix, answers, q.scoreBand, q.maxScore)
  }

  /**
   * The `{value, band}` of a matrix question. A dependency that was not answered at all is a
   * TypeError before any lookup; otherwise singleScore's rules apply to the selected column.
   */
  function MatrixScore(q: MatrixQuestion, userAnswers: seq<string>, dependentUserAnswers: map<string, seq<string>>)
    : (r: Result<ScoreResult, ScoreError>)
    ensures q.scoreDependency !in dependentUserAnswers ==> r == Err(MissingDependency(q.scoreDependency))
    ensures q.scoreDependency in dependentUserAnswers ==>
      && (|userAnswers| > 1 ==> r == Err(MultipleAnswers(q.id)))
      && (|userAnswers| == 0 ==> r == Err(AnswerNotFound("undefined", q.id)))
      && (|userAnswers| == 1 && NoRow(q.answers, userAnswers[0]) ==> r == Err(AnswerNotFound(userAnswers[0], q.id)))
    ensures q.scoreDependency in dependentUserAnswers ==>
      var column := ColumnKey(dependentUserAnswers[q.scoreDependency]);
      forall i :: |userAnswers| == 1 && FirstRowAt(q.answers, userAnswers[0], i) ==>
        r.Ok? && r.value.value == Cell(q.answers[i], column)
    ensures r.Ok? ==> IsBandOf(q.scoreBand, Operand(r.value.value), r.value.band)
  {
    if q.scoreDependency !in dependentUserAnswers then Err(MissingDependency(q.scoreDependency))
    else
      var column := ColumnKey(dependentUserAnswers[q.scoreDependency]);
      var rewritten := WithColumn(q, column);
      assert forall t :: NoRow(q.answers, t) ==> NoAnswer(rewritten.answers, t);
      assert forall t, i :: FirstRowAt(q.answers, t, i) ==> FirstAnswerAt(rewritten.answers, t, i);
      SingleScore(rewritten, userAnswers)
  }

  /** A row without the selected column scores `undefined` with a null band; it is not an error. */
  lemma MissingColumnIsUndefined(q: MatrixQuestion, answer: string, dependentUserAnswers: map<string, seq<string>>, i: nat)
    requires q.scoreDependency in dependentUserAnswers
    requires FirstRowAt(q.answers, answer, i)
    requires ColumnKey(dependentUserAnswers[q.scoreDependency]) !in q.answers[i].score
    ensures MatrixScore(q, [answer], dependentUserAnswers) == Ok(ScoreResult(Undefined, None))
  {
    var r := MatrixScore(q, [answer], dependentUserAnswers);
    assert r.Ok? && r.value.value == Undefined;
    assert NoBand(q.scoreBand, None);
  }

  /** A matrix question whose two rows are scored by four dependency columns, banded 0-2, 3-5 and 6-8. */
  const Table: MatrixQuestion := MatrixQuestion(
    "matrixScore",
    Details(None, None, None),
    "matrixDependency",
    [ MatrixAnswer("matrixScoreA", map["dependentQuestionA" := Num(1), "dependentQuestionB" := Num(2),
                                      "dependentQuestionC" := Num(3), "dependentQuestionD" := Num(4)]),
      MatrixAnswer("matrixScoreB", map["dependentQuestionA" := Num(2), "dependentQuestionB" := Num(4),
                                      "dependentQuestionC" := Num(6), "dependentQuestionD" := Num(8)]) ],
    [Range("Weak", 0, 2), Range("Medium", 3, 5), Range("Strong", 6, 8)],
    Some(8))

  /** A row found by its first match, a column it has and a band containing its cell decide the result. */
  lemma CellScored(q: MatrixQuestion, answer: string, dependentUserAnswers: map<string, seq<string>>, i: nat, n: int, j: nat)
    requires q.scoreDependency in dependentUserAnswers
    requires FirstRowAt(q.answers, answer, i)
    requires Cell(q.answers[i], ColumnKey(dependentUserAnswers[q.scoreDependency])) == Num(n)
    requires FirstBandAt(q.scoreBand, Some(n), j)
    ensures MatrixScore(q, [answer], dependentUserAnswers) == Ok(ScoreResult(Num(n), Some(q.scoreBand[j].name)))
  {
  }

  /** The two rows are labelled differently, so each label finds its own row. */
  lemma TableRows()
    ensures FirstRowAt(Table.answers, "matrixScoreA", 0)
    ensures FirstRowAt(Table.answers, "matrixScoreB", 1)
  {
    var rows := Table.answers;
    assert rows[0].answer != rows[1].answer by { assert rows[0].answer[11] != rows[1].answer[11]; }
  }

  /** The dependency's first answer picks the column: row B under column C scores 6, Strong; row A under column A scores 1, Weak. */
  lemma TableExample()
    ensures MatrixScore(Table, ["matrixScoreB"], map["matrixDependency" := ["dependentQuestionC"]])
      == Ok(ScoreResult(Num(6), Some("Strong")))
    ensures MatrixScore(Table, ["matrixScoreA"], map["matrixDependency" := ["dependentQuestionA", "dependentQuestionD"]])
      == Ok(ScoreResult(Num(1), Some("Weak")))
  {
    TableRows();
    TableRowBColumnC();
    TableRowAColumnA();
  }

  lemma TableRowBColumnC()
    requires FirstRowAt(Table.answers, "matrixScoreB", 1)
    ensures MatrixScore(Table, ["matrixScoreB"], map["matrixDependency" := ["dependentQuestionC"]])
      == Ok(ScoreResult(Num(6), Some("Strong")))
  {
    var dep := map["matrixDependency" := ["dependentQuestionC"]];
    assert ColumnKey(dep["matrixDependency"]) == "dependentQuestionC";
    assert Cell(Table.answers[1], "dependentQuestionC") == Num(6);
    assert FirstBandAt(Table.scoreBand, Some(6), 2);
    CellScored(Table, "matrixScoreB", dep, 1, 6, 2);
  }

  lemma TableRowAColumnA()
    requires FirstRowAt(Table.answers, "matrixScoreA", 0)
    ensures MatrixScore(Table, ["matrixScoreA"], map["matrixDependency" := ["dependentQuestionA", "dependentQuestionD"]])
      == Ok(ScoreResult(Num(1), Some("Weak")))
  {
    var dep := map["matrixDependency" := ["dependentQuestionA", "dependentQuestionD"]];
    assert ColumnKey(dep["matrixDependency"]) == "dependentQuestionA";
    assert Cell(Table.answers[0], "dependentQuestionA") == Num(1);
    assert FirstBandAt(Table.scoreBand, Some(1), 0);
    CellScored(Table, "matrixScoreA", dep, 0, 1, 0);
  }
}
