# Grant application scoring (ffc-grants-scoring) in Dafny

This project models the scoring engine of the DEFRA grants scoring service. It also proves properties of that model.

Each configured question turns the applicant's answer(s) into a `{value, band}` pair. It uses one of three strategies:

- **single-answer:** an exact-match lookup, then the first inclusive `[minValue, maxValue]` band that holds the score;
- **multi-answer:** a one-element list is split on commas and de-duplicated, then the looked-up scores are summed and banded;
- **matrix:** the dependency question's first answer picks a column of each row's score table, then the single-answer rules apply.

The mapper then adds the per-question values into a total. It looks up the first total band holding that total and derives a percentage of `maxScore`. From the percentage and the eligibility threshold it gives an Eligible/Ineligible status.

Around that engine the model also covers:

- the older helpers `sum`, `score` (curried question lookup, in two revisions) and `simpleScore`;
- the payload normaliser that rewrites `data.main` into an `answers` list in place;
- both revisions of the validation fail-action that builds the `Validation failed: ...` message and the 400 response;
- `isStrictObject`;
- the log-parameter validation and dispatch;
- the two integer-valued grant configurations, used for end-to-end lemmas.

## JavaScript values

`ScoreValue = Num(int) | Null | Undefined` reproduces how the JavaScript engine treats a score:

- `null` adds 0 and compares as 0, so "None of the above" lands in the first band.
- `undefined` (a missing matrix column) turns a sum into NaN (`JsNumber.NaN`) and falls in no band.

`Total` is the left fold the source performs. `PointSum` is a reference sum, and `TotalIsPointSum` proves that the two agree.

Some inputs are checked with `Array.isArray`; they have the type `Arg<T> = Array(items) | NotArray(value)`, where a non-array value is `null`, `undefined` or some other value (taken to be a plain object with neither an index `0` nor a `find` method). Any `Error` or `TypeError` the source throws becomes an `Err` value, and a `Message` function gives its exact text. Percentages are `real`.

## Modules

| file | source |
|---|---|
| `scoring_types.dfy` | value rules, bands, answers, questions |
| `single_score.dfy` | `single-score.js` |
| `multi_score.dfy` | `multi-score.js` |
| `matrix_score.dfy` | `matrix-score.js` |
| `map_to_final_result.dfy` | `map-to-final-result.js` |
| `sum.dfy` | `sum.js` |
| `score.dfy` | `services/scoring/score.js` |
| `simple_score_api.dfy` | `api/scoring/simple-score.js` |
| `dxt_normaliser.dfy` | in-place payload rewrite (a class) |
| `validation_details.dfy` | shared validation-detail types |
| `fail_action.dfy` | `fail-action.js` |
| `fail_action_legacy.dfy` | the older `failAction.js` |
| `is_strict_object.dfy` | `isStrictObject.js` |
| `log.dfy` | `log.js`; the logger is a class whose `written` field records each call |
| `scoring_config.dfy` | `scoring-config.js` |
| `example_grant_config.dfy` | `example-grant-config.js` |
| `js_values.dfy`, `js_strings.dfy`, `js_arrays.dfy`, `wrappers.dfy` | the JavaScript built-ins the core relies on: `Object.entries`, `split`, `join`, `Set` de-duplication, `find`, `Array.isArray` |

Two facts proved about the code as written stand out. They are stated as lemmas:

- **multiScore crashes when no band matches.** `multiScore` throws a TypeError instead of returning a null band. With the bundled configuration, the answers `['A','A','A','A']` reach 16, above every band. See Findings.
- **None of the log codes can be logged.** No entry of the shown log-code table has an `event` field. A real `log(LogCodes.X)` call therefore always fails validation, with "Missing or invalid event" (`Logging.CodeWithoutEventRejected`). That includes the fail-actions' own `VALIDATION_ERROR` log call, which the fail-action models nevertheless assume succeeds (see Left out).

## Model

| member | source | states |
|---|---|---|
| ScoringTypes.TotalIsPointSum | src/services/scoring/methods/multi-score.js:30 | The `reduce` sum of scores is NaN exactly when some score is undefined. Otherwise it is the sum of the numbers, with every null counting 0. |
| ScoringTypes.TotalPermutation | src/services/scoring/methods/multi-score.js:30 | Reordering the scores (same multiset) does not change their JavaScript sum. |
| ScoringTypes.FindBand | src/services/scoring/methods/single-score.js:26-28 | The band found is the first with `minValue <= x <= maxValue`. None is found exactly when no band holds x, and undefined/NaN or a percentage-shaped band never matches. |
| ScoringTypes.FindAnswer | src/services/scoring/methods/single-score.js:15-17 | The answer found is the first whose text equals the user answer exactly. None is found exactly when no answer has that text. |
| ScoringTypes.ScoreOf | src/services/scoring/methods/single-score.js:15-25 | Reference lookup: the score of the first configured answer with the given text. |
| SingleScoreMethod.SingleScore | src/services/scoring/methods/single-score.js:8-31 | More than one answer gives the "Multiple answers" error naming the id. An empty list fails as "not found" for `undefined`, and an unknown answer fails as "not found" naming it and the id. Otherwise `value` is the first matching answer's score and `band` is the first band holding it (null counting 0), or null if none does. |
| SingleScoreMethod.SingleScoreErrorKinds | src/services/scoring/methods/single-score.js:9-13 | The "Multiple answers" error arises if and only if more than one answer is given. |
| SingleScoreMethod.NullScoreBandedAsZero | src/services/scoring/methods/single-score.js:25-29 | A null score is returned as null but banded as 0. |
| SingleScoreMethod.UndefinedScoreHasNoBand | src/services/scoring/methods/single-score.js:25-30 | An undefined score is returned with a null band, not an error. |
| MultiScoreMethod.LookupScores | src/services/scoring/methods/multi-score.js:15-27 | Succeeds iff every selected answer is configured, and then yields their scores in order. Otherwise the error names the first unknown answer in list order and the question id. |
| MultiScoreMethod.MultiScore | src/services/scoring/methods/multi-score.js:9-36 | The first unknown selected answer is reported by name. A success carries `PointSum` of the picked scores (none undefined) and the name of the first band holding it; with all answers known, success holds iff no score is undefined and some band holds the sum. Every failure that is not the missing band is "not found" for this question, and with all answers known every failure is the missing band. |
| MultiScoreMethod.SplitEntryScoresAsParts | src/services/scoring/methods/multi-score.js:11-13 | A one-element list scores as its comma-separated parts with duplicates removed, in the order of their first occurrences (`JsStrings.DedupeFirstOccurrenceOrder`). |
| MultiScoreMethod.SameSelectionSameScore | src/services/scoring/methods/multi-score.js:11-35 | Two user-answer lists that select the same answers score the same. |
| MultiScoreMethod.PartsSelectThemselves | src/services/scoring/methods/multi-score.js:11-13 | The de-duplicated parts of an entry are selected as they are, with no second split. |
| MultiScoreMethod.PickedScoresPermutation | src/services/scoring/methods/multi-score.js:15-27 | Permuting the selected answers permutes the picked scores. |
| MultiScoreMethod.MultiScorePermutation | src/services/scoring/methods/multi-score.js:15-34 | For two or more answers, a permutation of the list succeeds exactly when the original does, with the same result. |
| MultiScoreMethod.FirstUnknownExists | src/services/scoring/methods/multi-score.js:15-24 | If some selected answer is unknown, there is a first one. |
| MultiScoreMethod.MultiScoreOrNullBand | src/services/scoring/methods/multi-score.js:31-34 | Corrected band lookup: the same sum and errors, but no containing band gives a null band instead of a TypeError. |
| MultiScoreMethod.CorrectionKeepsSuccesses | src/services/scoring/methods/multi-score.js:31-35 | On every input where the source succeeds, the corrected lookup returns the same result. |
| MatrixScoreMethod.WithColumn | src/services/scoring/methods/matrix-score.js:15-24 | The rewritten question keeps id, details, bands, maximum, answer labels and their order. Each answer's score is replaced by its cell in the selected column (undefined when absent). |
| MatrixScoreMethod.MatrixScore | src/services/scoring/methods/matrix-score.js:11-26 | An unanswered dependency is an error before any lookup. Otherwise: more than one answer is "Multiple answers", none or an unknown one is "not found", and the first matching row yields its cell in the column named by the dependency's first answer, banded as in singleScore. |
| MatrixScoreMethod.MissingColumnIsUndefined | src/services/scoring/methods/matrix-score.js:18 | A row without the selected column scores undefined with a null band, not an error. |
| MatrixScoreMethod.CellScored | src/services/scoring/methods/matrix-score.js:12-25 | A matching row whose cell holds n, with a band holding n, scores n with that band's name. |
| MatrixScoreMethod.TableExample | src/services/scoring/methods/matrix-score.js:11-26 | Row B under column C scores 6 (Strong). Row A with dependency answers [A, D] uses column A and scores 1 (Weak). |
| MatrixScoreMethod.TableRows | src/services/scoring/methods/matrix-score.test.js:8-44 | Each of the two row labels finds its own row first. |
| MatrixScoreMethod.TableRowBColumnC | src/services/scoring/methods/matrix-score.js:11-26 | Row B under column C scores 6, Strong. |
| MatrixScoreMethod.TableRowAColumnA | src/services/scoring/methods/matrix-score.js:11-26 | Row A, with the dependency answered [A, D], uses column A and scores 1, Weak. |
| FinalResultMapper.MapToFinalResult | src/api/scoring/mapper/map-to-final-result.js:11-45 | A non-array input gives the TypeError. Success holds exactly when some total band holds the total; otherwise the band-gap error carries the total. On success: `answers` is the input unchanged, `score` is the sum (null as 0, none undefined), `scoreBand` is the first band holding it, and the status is Eligible iff a threshold exists and the percentage reaches it. |
| FinalResultMapper.EligibleIffScaled | src/api/scoring/mapper/map-to-final-result.js:20-42 | With a positive maximum, Eligible iff `100 * score >= threshold * maxScore`. |
| FinalResultMapper.NoMaximumIsIneligible | src/api/scoring/mapper/map-to-final-result.js:20-42 | A missing or non-positive maximum gives percentage 0, so any positive threshold gives Ineligible. |
| FinalResultMapper.MapperPermutation | src/api/scoring/mapper/map-to-final-result.js:16-43 | Reordering the raw scores changes neither success, nor the score, status and band, nor any error. |
| FinalResultMapper.ValuesPermutation | src/api/scoring/mapper/map-to-final-result.js:16 | A permutation of raw scores permutes their values. |
| FinalResultMapper.PercentageBandsAlwaysGap | src/api/scoring/mapper/map-to-final-result.js:23-34 | When every total band is percentage-shaped, every array input ends in the band-gap error. |
| FinalResultMapper.EmptyRawScores | src/api/scoring/mapper/map-to-final-result.js:16-43 | An empty list totals 0 and gets the first band holding 0. |
| SumService.Sum | src/services/scoring/sum.js:8-33 | A non-array or empty `questionScores`, then a non-array `userAnswers`, give their errors in that order. Given both arrays, the "answers must be an array" error arises iff some question's answers are not an array. |
| SumService.Matched | src/services/scoring/sum.js:24-29 | Reference definition: the scores of the configured answers whose text is among the user answers, at most one per configured answer. |
| SumService.QuestionTotalIsMatched | src/services/scoring/sum.js:24-29 | The inner fold equals the JavaScript sum of the matched scores. |
| SumService.QuestionsTotalIsAllMatched | src/services/scoring/sum.js:17-32 | The outer fold equals the sum of all questions' matched scores. |
| SumService.TotalAppend | src/services/scoring/sum.js:31 | The sum of a concatenation is the sum of the two sums. |
| SumService.SumIsPickedTotal | src/services/scoring/sum.js:17-32 | For well-formed input the result is NaN iff a matched score is undefined. Otherwise it is the sum of the matched scores over all questions. |
| SumService.SumDependsOnlyOnAnswerSet | src/services/scoring/sum.js:24-29 | Two user-answer lists with the same members (any order, any duplicates) give the same result. |
| SumService.NoMatchIsZero | src/services/scoring/sum.js:25 | When no configured answer is among the user answers, the sum is 0. |
| SumService.CropExample | src/services/scoring/sum.js:17-32 | Picking 'Protected cropping' (3) and 'Fruit' (2) sums to 5. |
| ScoreService.FindQuestion | src/services/scoring/score.js:16 | The first question with the id, or none exactly when no question has it. |
| ScoreService.ResolveQuestions | src/services/scoring/score.js:15-23 | Succeeds iff every id is present, with one entry per id, in order, each the first question with that id. The first missing id gives "Question with id X not found". |
| ScoreService.Score | src/services/scoring/score.js:9-27 | A non-array `scoringData` is the TypeError. Otherwise the result is `evaluate(resolved questions, answer)` exactly when every id resolves, and the first missing id is reported otherwise. |
| ScoreService.FirstMissingExists | src/services/scoring/score.js:15-21 | If some id is missing, there is a first missing one. |
| ScoreService.FoundHead | src/services/scoring/score.js:15-22 | When the first id is found, all ids are found iff the remaining ones are, and the first missing id lies among the remaining ones. |
| ScoreService.ResolvedCons | src/services/scoring/score.js:15-23 | Resolving the first id to its first question, and the rest to theirs, resolves the whole list in order. |
| ScoreService.ResolveErrorNamesRequestedId | src/services/scoring/score.js:17-21 | A failed resolution is always "not found" for one of the requested ids. |
| ScoreService.ResolvedIdsMatch | src/services/scoring/score.js:15-22 | Each resolved question carries the id requested at its position. |
| ScoreService.ScoreWithSum | src/services/scoring/score.js:25 | Corollary of `ScoreService.Score`: applying `sum` as the predicate sums over exactly the resolved questions. |
| SimpleScoreApi.Lookup | src/api/scoring/simple-score.js:13 | The first question with the id, or none (`undefined`) exactly when no question has it. |
| SimpleScoreApi.LookupAll | src/api/scoring/simple-score.js:9-15 | One slot per id. |
| SimpleScoreApi.CollectQuestions | src/api/scoring/simple-score.js:9-15 | The `forEach`/`push` loop builds exactly the per-id lookup list, in order. |
| SimpleScoreApi.Score | src/api/scoring/simple-score.js:7-21 | Returns `evaluate` applied to the collected list and the answer, unchanged. |
| SimpleScoreApi.LookupAllSlots | src/api/scoring/simple-score.js:11-15 | A slot is undefined exactly when its id is absent. Otherwise it holds a question with that id. |
| SimpleScoreApi.AgreesWithServiceScore | src/api/scoring/simple-score.js:8-15 | When every id is present, the lookup coincides slot by slot with the newer resolution, which then succeeds. |
| SimpleScoreApi.SimpleScore | src/api/scoring/simple-score.js:29-33 | Consults only the first question. A null or undefined question list, no first question, a null or undefined answer list, an answer list without `find`, and an absent answer each give Node's own TypeError; otherwise the result is the score of the first matching answer. |
| SimpleScoreApi.SimpleScoreIsScoreOf | src/api/scoring/simple-score.js:29-33 | A present answer yields its reference score. |
| SimpleScoreApi.OnlyFirstQuestion | src/api/scoring/simple-score.js:30 | Questions after the first never change the result. |
| SimpleScoreApi.SumAgreesWithSimpleScore | src/api/scoring/simple-score.js:29-33 | For a uniquely labelled answer, `simpleScore` and `sum` on one question and that one answer report the same score. |
| SimpleScoreApi.MatchedUniqueLabel | src/services/scoring/sum.js:24-29 | A user answer naming exactly one configured answer matches that answer's score alone. |
| JsValues.Entries | src/api/scoring/dxt-normaliser.js:47 | `Object.entries`: an object's own entries in order; index/element pairs for an array; index/character pairs for a string; nothing for other primitives. |
| JsStrings.Split | src/services/scoring/methods/multi-score.js:12 | `split(',')` gives at least one part, none containing the separator. |
| JsStrings.JoinSplit | src/services/scoring/methods/multi-score.js:12 | Joining the parts of a split with the separator gives the original string back. |
| JsStrings.Dedupe | src/services/scoring/methods/multi-score.js:12 | `[...new Set(xs)]` keeps exactly the same members, without duplicates, and is never longer. |
| JsStrings.DedupeFirstOccurrenceOrder | src/services/scoring/methods/multi-score.js:12 | The kept members appear in the order of their first occurrences in `xs`. |
| JsStrings.DedupeDistinct | src/services/scoring/methods/multi-score.js:12 | A list without duplicates is left unchanged. |
| JsStrings.NatToStringValue | src/api/scoring/dxt-normaliser.js:47 | The decimal index keys read back as the index. |
| DxtNormaliser.AnswerList | src/api/scoring/dxt-normaliser.js:49-53 | An array is kept, a non-null scalar is wrapped in a one-element list, and null/undefined become the empty list. |
| DxtNormaliser.Normalized | src/api/scoring/dxt-normaliser.js:43-59 | Without a truthy `data.main`, the payload is returned as it was. With one, `answers` is replaced by the entry list, `data` is removed, and every other property is kept. |
| DxtNormaliser.Payload.NormalizePayload | src/api/scoring/dxt-normaliser.js:43-59 | Rewrites the payload's properties in place to `Normalized(old props)` and returns `Continue`. |
| DxtNormaliser.NormalizedIdempotent | src/api/scoring/dxt-normaliser.js:46-55 | Normalising twice is the same as normalising once. |
| DxtNormaliser.AnswerEntriesWellFormed | src/api/scoring/dxt-normaliser.js:47-54 | Every produced entry is an object with `questionId` set to the key and an array `answers`. |
| FailAction.ScoringFailAction | src/api/scoring/fail-action.js:5-39 | A non-validation error is re-thrown unchanged. A validation error gives a 400 takeover whose body and log carry the same `Validation failed: ` message built from the details. |
| FailAction.SingleBasicDetail | src/api/scoring/fail-action.js:17-23 | A single detail without context details gives `Validation failed: [path]: message`, with the path joined by '.'. |
| FailAction.EmptyContextDetails | src/api/scoring/fail-action.js:9-16 | Corollary of `FailAction.ScoringFailAction` for one case: an empty context-details array contributes an empty segment. |
| FailAction.MessagePrefix | src/api/scoring/fail-action.js:23 | Corollary of `FailAction.ScoringFailAction`: every message starts with `Validation failed: `. |
| LegacyFailAction.ScoringFailAction | src/api/scoring/failAction.js:5-41 | The same outcome shapes as the newer revision, built with the legacy segment rules. |
| LegacyFailAction.RevisionsAgreeOnContextDetails | src/api/scoring/failAction.js:10-15 | When every detail has context details, both revisions give the same outcome: the spaced string built first is discarded. |
| LegacyFailAction.RevisionsAgreeOnOtherErrors | src/api/scoring/failAction.js:40 | Both revisions re-throw a non-validation error. |
| LegacyFailAction.RevisionsDifferOnBasicDetail | src/api/scoring/failAction.js:16-19 | For a basic detail the legacy revision writes `] : ` where the newer one writes `]: `, so the messages differ. |
| StrictObject.IsStrictObject | src/utils/isStrictObject.js:1-8 | True iff the value is a plain object and, when the flag is set, it has at least one key. |
| StrictObject.ObjectTagOnlyForObjects | src/utils/isStrictObject.js:2 | The tag `[object Object]` is produced by plain objects and by nothing else. |
| StrictObject.FlagOnlyNarrows | src/utils/isStrictObject.js:4-7 | The flag only turns true into false, and it does so exactly for `{}`. |
| Logging.ValidateLogParams | src/api/logging/log.js:50-74 | Passes iff some of level/event is defined, the level is an accepted level, both are truthy and the context is a non-array object. The failures, in order: "Missing or invalid logCode", "Invalid logCode level", then the first of level, event, context as "Missing or invalid <field>": once the code is present and its level accepted, every failure is of that last kind. |
| Logging.GetLoggerOfType | src/api/logging/log.js:34-40 | The info, debug and error loggers each answer exactly their own level name. Any other level finds no logger. |
| Logging.RemoveKey | src/api/logging/log.js:23-26 | The entries without the given key, and all of them. |
| Logging.LogEntry | src/api/logging/log.js:23-26 | `{event, ...context}`: `event` comes first, and the context's own `event` overrides it. Every other context entry follows. |
| Logging.Outcome | src/api/logging/log.js:19-27 | `log` succeeds iff validation passes and a logger exists for the level. |
| Logging.LogSink.Log | src/api/logging/log.js:19-27 | Validates, then appends `{event, ...context}` to the matching logger's record. On any failure nothing is written. A missing context defaults to `{}`. |
| Logging.NoArguments | src/api/logging/log.js:19-53 | `log()` with no arguments fails as "Missing or invalid logCode". |
| Logging.CodeWithoutEventRejected | src/api/logging/log.js:50-73 | A code with a level but no event fails as "Invalid logCode level" when the level is not accepted. Otherwise it fails as "Missing or invalid event". |
| Logging.AcceptedLevelWithoutLogger | src/api/logging/log.js:23-40 | An accepted level with no logger function (such as 'warn') fails when the logger is called. |
| ScoringConfigData.Load | src/config/scoring-config.js:60-108 | Loading succeeds, returning the constant, iff it satisfies the schema; otherwise it fails with "Validation failed". The schema: no question carries `category`, `fundingPriorities` or `changeLink` (unknown keys); every band is named Weak, Medium or Strong and has both limits; each question and the total have a `maxScore`; the threshold lies in 0..100. A score may be a number, null or absent. |
| ScoringConfigData.ConfigLoads | src/config/scoring-config.js:15-58 | The bundled constant satisfies its schema: band names in {Weak, Medium, Strong}, threshold in 0..100. |
| ScoringConfigData.MaxScoreIsSumOfQuestionMaxima | src/config/scoring-config.js:30-56 | maxScore 20 = 8 + 12. |
| ScoringConfigData.TotalBandsPartition | src/config/scoring-config.js:51-55 | The total bands cover every integer 0..20, each exactly once. |
| ScoringConfigData.QuestionBandsPartition | src/config/scoring-config.js:25-47 | Each question's bands cover 0..its maxScore, each integer exactly once. |
| ScoringConfigData.SingleAnswerB | src/config/scoring-config.js:17-31 | 'B' scores 8, Strong. |
| ScoringConfigData.SingleAnswerNone | src/config/scoring-config.js:21-29 | 'None of the above' scores null, Weak. |
| ScoringConfigData.MultiScoreOf | src/config/scoring-config.js:32-49 | For the multi-answer question, known answers with picked scores and a containing band decide the result. |
| ScoringConfigData.MultiAnswerAC | src/config/scoring-config.js:32-49 | ['A','C'] scores 6, Medium. |
| ScoringConfigData.SplitPairs | src/services/scoring/methods/multi-score.js:12 | "A,C" and "A,A" split into their two parts. |
| ScoringConfigData.MultiAnswerCommaList | src/config/scoring-config.js:32-49 | ['A,C'] scores as ['A','C']: 6, Medium. |
| ScoringConfigData.MultiAnswerCommaDuplicate | src/config/scoring-config.js:32-49 | ['A,A'] is de-duplicated: 4, Weak. |
| ScoringConfigData.CommaDuplicateSelected | src/services/scoring/methods/multi-score.js:11-13 | The single entry "A,A" selects just ['A']. |
| ScoringConfigData.MultiAnswerRepeated | src/config/scoring-config.js:32-49 | ['A','A'] counts A twice: 8, Medium. |
| ScoringConfigData.MultiAnswerEmpty | src/config/scoring-config.js:32-49 | [] scores 0, Weak. |
| ScoringConfigData.MultiAnswerNoneOfTheAbove | src/config/scoring-config.js:41-47 | ['None of the above'] scores 0, Weak. |
| ScoringConfigData.NoneOfTheAboveSelected | src/services/scoring/methods/multi-score.js:11-13 | A single entry without commas is selected as itself. |
| ScoringConfigData.NoneOfTheAboveIsLast | src/config/scoring-config.js:35-42 | The first answer labelled 'None of the above' is the sixth. |
| ScoringConfigData.RepeatedAnswersOverflowBands | src/config/scoring-config.js:32-49 | ['A','A','A','A'] reaches 16, above every band. The source's lookup fails, and the corrected lookup gives 16 with a null band. |
| ScoringConfigData.PointSumPair | src/services/scoring/methods/multi-score.js:30 | Arithmetic helper for the configuration's sums: the sum of two scores is their points added. |
| ScoringConfigData.MapperOf | src/api/scoring/mapper/map-to-final-result.js:16-44 | A finite total with a containing band gives that total, band and status. |
| ScoringConfigData.EndToEndEligible | src/config/scoring-config.js:15-58 | Single 'B' (8, Strong) plus multi ['A','C'] (6, Medium) totals 14: band Medium, 70% >= 60, Eligible. |
| ScoringConfigData.SingleScoreValues | src/config/scoring-config.js:20-24 | A single-answer success is 4, 8 or null. |
| ScoringConfigData.MultiValueInSomeBand | src/services/scoring/methods/multi-score.js:30-35 | A successful multi-answer value is a number lying in one of the question's bands. |
| ScoringConfigData.MultiScoreRange | src/config/scoring-config.js:32-49 | A multi-answer success is a number in 0..12. |
| ScoringConfigData.PairHasBand | src/config/scoring-config.js:51-55 | Any pair of such values has a total band. |
| ScoringConfigData.ReachableTotalsHaveBand | src/config/scoring-config.js:15-58 | Whatever the single and multi answers, when both score, the mapper never hits the band-gap error. |
| ExampleGrantConfig.Load | src/config/grants/example-grant-config.js:70-74 | Loading succeeds, returning the constant, iff it satisfies the schema: every question has a `changeLink` and absolute bands, the total bands are percentage-shaped, `maxScore` is present, and there is no `eligibilityPercentageThreshold` (an unknown key). Band names are Weak, Average or Strong; a score may be a number, null or absent. |
| ExampleGrantConfig.ConfigLoads | src/config/grants/example-grant-config.js:10-68 | The example grant satisfies its schema. |
| ExampleGrantConfig.MaxScoreIsSumOfQuestionMaxima | src/config/grants/example-grant-config.js:31-67 | maxScore 20 = 8 + 12. |
| ExampleGrantConfig.QuestionBandsPartition | src/config/grants/example-grant-config.js:26-54 | Each question's bands cover 0..its maxScore exactly once. |
| ExampleGrantConfig.PercentageBandsPartition | src/config/grants/example-grant-config.js:58-66 | Every non-negative percentage lies in exactly one of [0,20), [20,50), [50,inf). |
| ExampleGrantConfig.TotalAlwaysBandGap | src/config/grants/example-grant-config.js:58-66 | With these percentage-shaped total bands, the mapper ends in the band-gap error for every list of raw scores. |
| ExampleGrantConfig.NoThreshold | src/config/grants/example-grant-config.js:10-68 | No eligibility threshold is defined, so every percentage is Ineligible. |
| ExampleGrantConfig.TwoSingleAnswersRejected | src/config/grants/example-grant-config.js:12-32 | Two answers to `singleAnswer` give "Multiple answers provided for single-answer question: singleAnswer". |
| ExampleGrantConfig.UnknownSingleAnswerNamed | src/config/grants/example-grant-config.js:12-32 | An unknown single answer is named in the "not found" error with the question id. |
| ExampleGrantConfig.UnknownMultiAnswerNamed | src/config/grants/example-grant-config.js:33-56 | In ['A','B','NON_EXISTENT_ANSWER'], the unknown answer is named in the error. |

## Left out

- Hapi wiring, the request `h` toolkit and the logger transport are not modelled. `Lifecycle.Continue` stands for `h.continue`. A fail-action outcome is a value carrying the response body, the status code and the log record. The logger's output is the `written` record of `LogSink`.
- The accepted log levels (`LogCodeLevels`) are a parameter. `log.js` imports them, but the log-code table shown does not export them.
- FinalResultMapper.MapToFinalResult: the model returns the documented band-gap `Error` ("No matching score band found for total score N. ..."), carrying the total. As written, the source first evaluates `LogCodes.SCORING.MATRIX_SCORE.GENERAL_ERROR` for a log call. The log-code table shown has no `MATRIX_SCORE` entry, so that expression throws `TypeError: Cannot read properties of undefined (reading 'GENERAL_ERROR')` before the documented error is reached. This also applies to `FinalResultMapper.PercentageBandsAlwaysGap` and `ExampleGrantConfig.TotalAlwaysBandGap`.
- FailAction.ScoringFailAction: the `log(LogCodes.SCORING.VALIDATION_ERROR, ...)` call made before the response is assumed to succeed, and the outcome records it as a `ValidationLog`. With the log-code table shown, that code has level 'error' and no `event`, so `validateLogParams` rejects it (`Logging.CodeWithoutEventRejected`). As written, the handler therefore throws "Invalid log configuration: ..." before the 400 takeover is built.
- LegacyFailAction.ScoringFailAction: the same assumption about its `log` call, which as written throws in the same way.
- The text of the validation-error messages produced by the validation library is an input (`ValidationDetail.message`), not modelled. The 400 status code is taken as Bad Request (section 15.5.1 of RFC 9110); the status-code constants file is not part of this model.
- The score-band name constants file used by the example grant is not part of this model. Its AVERAGE band is assumed to be named "Average".
- Configuration schemas are modelled only as the constraints they impose (`SatisfiesSchema`). The validation library itself, and the text of its error message after "Validation failed: ", are not modelled.
- Numbers are integers, and a percentage is a `real`. IEEE-754 rounding, `Infinity` arithmetic and non-integer scores are not modelled.
- Inputs that only throw in JavaScript and have no value in the model are left out. These are a `null` `request.payload`, whose destructuring throws a TypeError in the normaliser, and a `null` first argument to `log`, which the `= {}` default does not replace, so destructuring it throws.
- JsValues.Entries: `Object.entries` on a string yields UTF-16 code units. The model yields Dafny characters, one per Unicode scalar value.
- Payload properties and `Object.entries` results follow key order as a sequence. The payload itself is a `map`, so the position of `answers` among the other properties is not modelled.
- ScoreService.Score: the source is curried, and an unknown id throws when the ids are supplied, before the answer and predicate stages. The model takes all arguments at once, so only the order of the checks and the errors are kept, not when they are raised.
- SimpleScoreApi.Score: `scoringData` is assumed to be an array. A non-array without a `find` method, which would throw a TypeError, is not modelled.
- SimpleScoreApi.SimpleScore: a `questionScores` or `answers` value that is neither an array nor nullish is taken to be a plain object without an index `0` or a `find` method. Strings, objects with a `0` key and objects with their own `find` are not modelled.
- Logging.GetLoggerOfType: level names inherited from `Object.prototype` (such as `toString`) are not modelled. They would find a non-logger function instead of none.
- MatrixScoreMethod.WithColumn: the rewritten question drops the matrix question's own `scoreDependency` field, which the single-answer rules never read.
- MultiScoreMethod.MultiScoreOrNullBand: NaN sums are kept as an error (undefined scores do not occur in multi-answer configurations) rather than given a null band.
- Tests that contradict the shown code are not followed: the code is modelled. These are the multiScore `[]` test, the message text in the single-score test, the normaliser's scalar and null tests, and the simple-score validation tests. Tests that target modules not shown are left aside as well.
- The orchestrator `score(config, allowPartialScoring)` used by the service-level score tests is not part of this model. Neither are partial scoring nor `isScoreOnly` filtering.
- The adding-value grant configurations (fractional scores), the duplicate example configuration and the log-code validator are not modelled.

## Findings

| source | as written | input that shows it | evidently intended | confidence | as-written member | corrected member |
|---|---|---|---|---|---|---|
| src/services/scoring/methods/multi-score.js:31-34 | `.find(...).name ?? null` reads `.name` of the `find` result before `?? null` applies, so when no band holds the sum it throws a TypeError | the bundled multi-answer question with answers ['A','A','A','A'] (sum 16, bands end at 12) | no containing band gives a null band, as in singleScore | not executed | MultiScoreMethod.MultiScore (witness ScoringConfigData.RepeatedAnswersOverflowBands) | MultiScoreMethod.MultiScoreOrNullBand (with MultiScoreMethod.CorrectionKeepsSuccesses) |
