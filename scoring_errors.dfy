/** The errors the per-question scoring methods throw, with the message text each carries. */
module ScoringErrors {

  datatype ScoreError =
    /** singleScore got more than one answer (single-score.js). */
    | MultipleAnswers(questionId: string)
    /** An answer text matched no configured answer; `answer` is the text as interpolated, "undefined" when absent. */
    | AnswerNotFound(answer: string, questionId: string)
    /** multiScore read `.name` of the band lookup's `undefined` (a TypeError). */
    | NoBandForSum
    /** matrixScore indexed `[0]` into a dependency answer that is not there (a TypeError). */
    | MissingDependency(scoreDependency: string)

  function Message(e: ScoreError): string
  {
    match e
    case MultipleAnswers(id) => "Multiple answers provided for single-answer question: " + id
    case AnswerNotFound(a, id) => "Answer \"" + a + "\" not found in question: " + id + "."
    case NoBandForSum => "Cannot read properties of undefined (reading 'name')"
    case MissingDependency(_) => "Cannot read properties of undefined (reading '0')"
  }
}
