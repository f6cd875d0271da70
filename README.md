# AI evaluation tools — a Dafny model

The repository is a Next.js application with three tool pages, all of which call one server route, `POST /api/ai`. The code-analysis page is left out; the other two are modelled.

- **The multiple-choice generator** (`qcm-generator`) asks the route for a bank of questions about a subject. It then draws an exam from that bank, with the questions and their options shuffled, and runs an untimed session. In the session the student answers, skips or reports questions, and the page grades the submission.
- **The code-evaluation page** asks the route for ten open questions about a piece of code. It collects free-text answers and sends them back to the route for grading.
- **The route** does the following:
  - validates the request;
  - fills in defaults;
  - puts one of four fixed system prompts in front of the conversation;
  - forwards the conversation to an upstream chat-completion service;
  - returns the model's text parsed as JSON, or wrapped as `{content: text}`.

The model is organised by module:

| module | file | models |
|---|---|---|
| `Js` | `js.dfy` | JSON values and the JavaScript semantics the code relies on: truthiness, `?.`, `\|\|` defaults, `String.prototype.trim` (the ECMAScript white space and line terminators) |
| `Prompts` | `prompts.dfy` | the four-entry `systemPrompts` table, held verbatim, and how it is looked up |
| `AiRoute` | `ai_route.dfy` | the route's `POST` as a pure function of the request it read, the upstream gateway `send`, and `parse` (`JSON.parse`, `None` where it throws) |
| `ApiClient` | `api_client.dfy` | how both pages read the route's reply; lemmas connecting route and page |
| `Shuffle` | `shuffle.dfy` | the `[...xs].sort(() => Math.random() - 0.5)` shuffle, as swaps on a copied array chosen by the caller |
| `Exam` | `exam.dfy` | question data, drawing an exam, grading, the percentage, and the result and difficulty counts |
| `QcmPage` | `qcm_page.dfy` | the generator page as a class; its handlers are specified by transition functions on a `PageState` snapshot |
| `CodeEvaluation` | `code_evaluation.dfy` | the code-evaluation page, in the same way |

Nothing in the model is executed. The random shuffles, the network calls and `JSON.parse`/`JSON.stringify` are parameters:

- `choices` sequences stand in for the random shuffles;
- `send` and `api` are the network calls;
- `parse`, `stringify` and `decode` are the JSON functions.

## Model

| member | source | states |
|---|---|---|
| Js.Field | src/app/api/ai/route.ts:156 | a property read gives a value exactly when the value is an object with that own key, and then that field |
| Js.First | src/app/api/ai/route.ts:156 | `[0]` on an array gives its first element exactly when the array is non-empty; on a string it gives the first character |
| Js.OptField | src/app/api/ai/route.ts:156 | `?.name` gives undefined on null or undefined, and otherwise the plain property read |
| Js.OptFirst | src/app/api/ai/route.ts:156 | `?.[0]` gives undefined on null or undefined, and otherwise the plain index |
| Js.Or | src/app/api/ai/route.ts:156 | `x \|\| fallback` is `x` when it is truthy and `fallback` otherwise |
| Js.TrimStart | src/app/tools/qcm-generator/page.tsx:75 | the result is a suffix of the input, its first character is not white space, and every removed character is |
| Js.TrimEnd | src/app/tools/qcm-generator/page.tsx:75 | the result is a prefix of the input, its last character is not white space, and every removed character is |
| Js.Trim | src/app/tools/qcm-generator/page.tsx:75 | the result is a slice `s[a..b]` of the input with only white space before `a` and after `b`, and when non-empty it starts and ends with a character that is not white space |
| Js.BlankIffAllWhitespace | src/app/tools/code-evaluation/page.tsx:57 | `!s.trim()` holds exactly when every character of `s` is white space or a line terminator |
| Prompts.ToolNamed | src/app/api/ai/route.ts:35-117 | a name is one of the four table keys exactly when some tool has it, and then it gives that tool |
| Prompts.ToolNamedInvertsName | src/app/api/ai/route.ts:35-117 | reading a tool's key back gives the tool |
| Prompts.Prompt | src/app/api/ai/route.ts:36-116 | every tool's prompt is non-empty, hence truthy |
| Prompts.PromptsDistinct | src/app/api/ai/route.ts:35-117 | the four prompts differ from one another |
| Prompts.SystemPrompt | src/app/api/ai/route.ts:120-121 | the own-key lookup (corrected): it finds a prompt exactly for the four keys, and the prompt held for that key |
| Prompts.LookupAsWritten | src/app/api/ai/route.ts:121 | the lookup as written finds an entry for the four keys and also for the twelve names inherited from Object.prototype |
| Prompts.WireSystemMessage | src/app/api/ai/route.ts:122-125 | the prepended message has role system; its content is dropped on the wire exactly when the entry found is an inherited method |
| Prompts.PrependedAsWritten | src/app/api/ai/route.ts:120-126 | as written, a system message is put in front exactly when the tool is a non-empty name the lookup finds, and it is the message for the entry found; never more than one |
| Prompts.InheritedNameGetsSystemMessage | src/app/api/ai/route.ts:121-125 | with tool `toString` or `__proto__`, a system message is put in front (without content, or with `{}`), though neither is a tool |
| Prompts.EveryInheritedNameGetsSystemMessage | src/app/api/ai/route.ts:121-125 | each of the twelve inherited names gets a system message put in front, though the own-key lookup finds no prompt for it |
| Prompts.AsWrittenAgreesOnToolNames | src/app/api/ai/route.ts:121 | both lookups agree on the four keys; they differ exactly on the inherited names |
| AiRoute.FinalMessages | src/app/api/ai/route.ts:120-126 | one extra message exactly when the tool names a prompt; the request's messages follow in order; the first is that tool's prompt verbatim; an unknown or absent tool leaves the messages as they were |
| AiRoute.CopyWithSystemPrompt | src/app/api/ai/route.ts:120-126 | the array version: a fresh copy equal to `FinalMessages`; the caller's array is not modified |
| AiRoute.Compose | src/app/api/ai/route.ts:24-32 | a request is forwarded exactly when model and messages are present and non-empty, with the model as given, the composed messages, and temperature 0.5 and max_tokens 4000 when absent |
| AiRoute.ModelText | src/app/api/ai/route.ts:156 | the extracted text is truthy or the empty string |
| AiRoute.ParsedOrWrapped | src/app/api/ai/route.ts:159-165 | the parsed value when parsing succeeds, and `{content: text}` when it throws |
| AiRoute.Interpret | src/app/api/ai/route.ts:144-183 | a transport failure and an unreadable or null body give 500 `Internal server error`; a non-2xx upstream status is passed on with `AI service error` and the upstream text as details; a 2xx with a body completes with the extracted text as raw_response, the parsed-or-wrapped data, and usage defaulting to `{}` |
| AiRoute.Handle | src/app/api/ai/route.ts:19-183 | an unreadable body gives 500; missing fields give 400 `Model and messages are required`; otherwise the answer is the interpretation of the upstream's reply to the composed request |
| AiRoute.BodyOf | src/app/api/ai/route.ts:167-182 | every answer is a JSON object; refusals carry `error` and no `data`; completions carry `data` and no `error` |
| AiRoute.RefusedBeforeUpstream | src/app/api/ai/route.ts:27-32 | a request missing its fields is refused the same way whatever the upstream would do |
| AiRoute.ValidRequestSentAsComposed | src/app/api/ai/route.ts:129-142 | a valid request is sent upstream as composed, with the caller's model |
| AiRoute.InterpretationNeverFails | src/app/api/ai/route.ts:153-172 | once the upstream answers 2xx with a non-null body, the route completes whatever the model's text |
| AiRoute.ModelTextOfCompletion | src/app/api/ai/route.ts:156 | the text of a completion is `choices[0].message.content` |
| AiRoute.ModelTextDefaultsToEmpty | src/app/api/ai/route.ts:156 | a missing or empty `choices`, a missing `message` or a missing `content` gives the empty text |
| AiRoute.CodeEvaluationComposition | src/app/api/ai/route.ts:36-51 | with tool `code-evaluation` and one message, the upstream sees the code-evaluation prompt and then that message |
| ApiClient.ErrorText | src/app/tools/qcm-generator/page.tsx:102-104 | the message is the reply's `error` string when it is non-empty, and the fallback otherwise |
| ApiClient.Accept | src/app/tools/qcm-generator/page.tsx:99-113 | a thrown fetch shows its message; a refusal shows its error; a completion is accepted exactly when its data is truthy and carries the marker, and is otherwise `Format de réponse invalide`; only a completion is ever accepted, and then as its data |
| ApiClient.RouteRefusalsAreNotOk | src/app/api/ai/route.ts:144-151 | every refusal the route gives has a status outside 200..299, so `response.ok` is false for it |
| ApiClient.RefusalShown | src/app/tools/code-evaluation/page.tsx:83-85 | the page shows exactly the error the route refused with |
| ApiClient.MissingFieldsShown | src/app/api/ai/route.ts:27-32 | a request missing its fields shows `Model and messages are required` on the page |
| ApiClient.UpstreamErrorShown | src/app/api/ai/route.ts:144-151 | an upstream error status shows `AI service error` on the page |
| ApiClient.UnparsableTextIsMalformed | src/app/tools/qcm-generator/page.tsx:106-111 | model text that is not JSON reaches the page wrapped, and the page reports `Format de réponse invalide` |
| ApiClient.ParsedArtifactAccepted | src/app/tools/code-evaluation/page.tsx:88-90 | model text that parses to an object carrying the marker is accepted as that object |
| Shuffle.ShuffledCopy | src/app/tools/qcm-generator/page.tsx:123 | the shuffled copy has the same elements with the same multiplicities |
| Shuffle.SubMultisetMap | src/app/tools/qcm-generator/page.tsx:127-130 | mapping keeps the sub-multiset relation between two lists |
| Exam.SampleSize | src/app/tools/qcm-generator/page.tsx:124 | the sample never exceeds the bank, and is `min(n, length)` for the counts the page offers |
| Exam.DrawExam | src/app/tools/qcm-generator/page.tsx:119-130 | the exam has `SampleSize` questions, drawn from the bank without replacement, each with its options in some order |
| Exam.DrawnQuestionFromBank | src/app/tools/qcm-generator/page.tsx:127-130 | each exam question equals a bank question in every field but the order of its options, which are a permutation of the bank question's |
| Exam.DrawnIdsDistinct | src/app/tools/qcm-generator/page.tsx:123-124 | a bank without repeated ids gives an exam without repeated ids |
| Exam.OutcomeOf | src/app/tools/qcm-generator/page.tsx:161-173 | the result line of one question: its id, the stored answer or `''`, correct exactly when an answer is stored and equals `correct_answer`, and whether it is skipped and reported |
| Exam.Details | src/app/tools/qcm-generator/page.tsx:161-173 | one result line per exam question, in exam order |
| Exam.Tally | src/app/tools/qcm-generator/page.tsx:554-566 | score plus correct-and-skipped equals the "Correctes" count, which is at most the number of lines; the three boxes sum to the number of lines plus the correct-and-skipped lines |
| Exam.Percentage | src/app/tools/qcm-generator/page.tsx:177 | NaN exactly for an empty exam; otherwise the integer nearest to `100 * correct / total`, halves rounded up |
| Exam.Grade | src/app/tools/qcm-generator/page.tsx:160-184 | score is the count of correct, unskipped lines and is at most the total; the total is the exam size; the percentage is rounded from both |
| Exam.PercentageInRange | src/app/tools/qcm-generator/page.tsx:177 | the percentage of a non-empty exam lies in 0..100 |
| Exam.PercentageExtremes | src/app/tools/qcm-generator/page.tsx:177 | below 200 questions: 100% exactly for a full score, and 0% exactly for no score |
| Exam.RoundsUpToFull | src/app/tools/qcm-generator/page.tsx:177 | 199 out of 200 already shows 100% |
| Exam.SkippedAnswersDoNotScore | src/app/tools/qcm-generator/page.tsx:175 | the answers stored for skipped questions do not change the score |
| Exam.CorrectCountIsScore | src/app/tools/qcm-generator/page.tsx:554 | "Correctes" is the score plus the correct-and-skipped lines, and equals the score when no question is both answered and skipped |
| Exam.CorrectThenSkipped | src/app/tools/qcm-generator/page.tsx:554 | a correctly answered, skipped question shows in "Correctes" but scores nothing |
| Exam.FullScoreIff | src/app/tools/qcm-generator/page.tsx:175-177 | full score exactly when every question is answered correctly and none skipped; a full, non-empty exam shows 100% |
| Exam.ZeroScoreIff | src/app/tools/qcm-generator/page.tsx:175-177 | zero score exactly when no question is both answered correctly and unskipped; an all-skipped non-empty exam shows 0% |
| Exam.UnmatchedKeyNeverScores | src/app/tools/qcm-generator/page.tsx:168 | when `correct_answer` names no option, an answer chosen from the options is never correct |
| Exam.CountDifficulties | src/app/tools/qcm-generator/page.tsx:355-369 | the three difficulty boxes together count at most the bank |
| Exam.DifficultiesCoverBankIff | src/app/tools/qcm-generator/page.tsx:355-369 | the boxes add up to the bank exactly when every question is `facile`, `moyen` or `difficile` |
| QcmPage.GenerationRequestComposes | src/app/tools/qcm-generator/page.tsx:84-96 | the route accepts the page's request; it puts the generator prompt first, uses temperature 0.5 and 4000 tokens, and keeps the subject untrimmed in the message |
| QcmPage.CanGenerate | src/app/tools/qcm-generator/page.tsx:297 | the generate button is enabled on the setup step exactly when the subject is not blank |
| QcmPage.ExamVisible | src/app/tools/qcm-generator/page.tsx:413 | the exam view is shown exactly on the exam step with a non-empty exam |
| QcmPage.CanAnswer | src/app/tools/qcm-generator/page.tsx:477-479 | a question's radio buttons are usable exactly when the exam view shows it and it is not skipped |
| QcmPage.CanSkip | src/app/tools/qcm-generator/page.tsx:492-493 | a question's skip button is usable exactly when the exam view shows it and it is not skipped |
| QcmPage.CanReport | src/app/tools/qcm-generator/page.tsx:500-501 | a question's report button is usable exactly when the exam view shows it and it is not reported |
| QcmPage.CanSubmit | src/app/tools/qcm-generator/page.tsx:521 | the submit button is usable exactly when the exam view is shown and at least one answer is recorded |
| QcmPage.AnswerTouchesOnlyItsEntry | src/app/tools/qcm-generator/page.tsx:139-144 | selecting an answer records it and changes no other answer and nothing else |
| QcmPage.SkipForgetsOnlyItsAnswer | src/app/tools/qcm-generator/page.tsx:146-154 | skipping adds the question to the skipped set and removes its answer only; a second skip changes nothing |
| QcmPage.ReportIsIdempotent | src/app/tools/qcm-generator/page.tsx:156-158 | reporting only grows the reported set, and a second report changes nothing |
| QcmPage.GenerationOutcome | src/app/tools/qcm-generator/page.tsx:74-117 | a blank subject only sets its error; an accepted reply loads the bank, moves to the preview and clears the error; a failed one only sets its message; the session is untouched; when the generate button is enabled the request is sent, and on the setup step with the button disabled only the blank-subject error is set |
| QcmPage.GenerationReachesPreviewIff | src/app/tools/qcm-generator/page.tsx:106-111 | from setup, the preview is reached exactly when the subject is not blank and the reply carries `data.questions` |
| QcmPage.StartOpensEmptySession | src/app/tools/qcm-generator/page.tsx:119-137 | without a bank, nothing happens; with one, the exam step opens with no answers, skips or reports, and the bank stays as it was |
| QcmPage.EmptyBankHidesExam | src/app/tools/qcm-generator/page.tsx:413 | an empty bank (`questions: []` passes the marker check) opens an exam step that shows no exam view |
| QcmPage.ResetClears | src/app/tools/qcm-generator/page.tsx:189-199 | reset returns to setup with subject, bank, exam, answers, sets, results and error cleared, and the LaTeX switch kept |
| QcmPage.ControlsKeepSessionWellFormed | src/app/tools/qcm-generator/page.tsx:477-501 | the enabled radio, skip and report controls, and submission, keep answers, skips and reports on exam questions, with no question both answered and skipped |
| QcmPage.GenerationKeepsSessionWellFormed | src/app/tools/qcm-generator/page.tsx:74-117 | generation keeps the session well formed |
| QcmPage.CorrectBoxIsScore | src/app/tools/qcm-generator/page.tsx:554 | through the page's controls, "Correctes" equals the score |
| QcmPage.AllSkippedCannotSubmit | src/app/tools/qcm-generator/page.tsx:521 | an exam whose every question was skipped has no answers left, so it cannot be submitted |
| QcmPage.SubmittedPercentage | src/app/tools/qcm-generator/page.tsx:413 | a submission from the exam view has a number percentage in 0..100; below 200 questions it is 100 exactly for a perfect session |
| QcmPage.QcmGeneratorPage.constructor | src/app/tools/qcm-generator/page.tsx:48-66 | the initial state: setup step, empty subject, no bank, no session |
| QcmPage.QcmGeneratorPage.EditSubject | src/app/tools/qcm-generator/page.tsx:283 | only the subject changes |
| QcmPage.QcmGeneratorPage.SetLatex | src/app/tools/qcm-generator/page.tsx:268 | only the LaTeX switch changes |
| QcmPage.QcmGeneratorPage.GenerateQcm | src/app/tools/qcm-generator/page.tsx:74-117 | no request for a blank subject, otherwise the generation request; the new state is `Generated` of the old |
| QcmPage.QcmGeneratorPage.StartExam | src/app/tools/qcm-generator/page.tsx:119-137 | no change without a bank; otherwise the new state is `Started` with a drawn exam of `SampleSize` questions taken from the bank |
| QcmPage.QcmGeneratorPage.SelectAnswer | src/app/tools/qcm-generator/page.tsx:139-144 | the new state is `Answered` of the old |
| QcmPage.QcmGeneratorPage.SkipQuestion | src/app/tools/qcm-generator/page.tsx:146-154 | the new state is `Skipped` of the old |
| QcmPage.QcmGeneratorPage.ReportQuestion | src/app/tools/qcm-generator/page.tsx:156-158 | the new state is `Reported` of the old |
| QcmPage.QcmGeneratorPage.SubmitExam | src/app/tools/qcm-generator/page.tsx:160-187 | the new state holds the grade of the session and shows the results |
| QcmPage.QcmGeneratorPage.ResetQcm | src/app/tools/qcm-generator/page.tsx:189-199 | the new state is `Reset` of the old |
| CodeEvaluation.Join | src/app/tools/code-evaluation/page.tsx:106-109 | one entry per question, in order, carrying the question and its recorded answer or `''` |
| CodeEvaluation.RequestsCompose | src/app/tools/code-evaluation/page.tsx:66-124 | the route accepts both requests and puts the code-evaluation, resp. grading, prompt in front of the page's message |
| CodeEvaluation.CanEvaluate | src/app/tools/code-evaluation/page.tsx:284 | the evaluate button is usable exactly on the questions step with at least one key in the answer map |
| CodeEvaluation.Passes | src/app/tools/code-evaluation/page.tsx:327 | an evaluation gets the passing badge exactly when its score is at least 0.7 times its maximum, on exact rationals |
| CodeEvaluation.PassesIntegerForm | src/app/tools/code-evaluation/page.tsx:327 | for whole-number scores the badge is green exactly when `10 * score >= 7 * max_score` |
| CodeEvaluation.GenerationOutcome | src/app/tools/code-evaluation/page.tsx:56-99 | blank code only sets its error; an accepted reply loads the questions and moves on; a failure only sets its message; answers are kept |
| CodeEvaluation.EvaluationReachesResultsIff | src/app/tools/code-evaluation/page.tsx:133-138 | from the questions step, the results are reached exactly when the reply carries `data.evaluations`; otherwise only the error changes |
| CodeEvaluation.EditTouchesOnlyItsEntry | src/app/tools/code-evaluation/page.tsx:267-270 | editing an answer changes only that id's entry of the answer map, and only that question's entry of the join |
| CodeEvaluation.JoinReadsOnlyQuestionIds | src/app/tools/code-evaluation/page.tsx:106-109 | answer maps that agree on the questions' ids give the same join |
| CodeEvaluation.ErasedAnswerEnablesEvaluation | src/app/tools/code-evaluation/page.tsx:284 | an answer typed and erased still enables the evaluate button, and is sent as `''` |
| CodeEvaluation.ResetClears | src/app/tools/code-evaluation/page.tsx:146-153 | reset returns to upload with code, questions, answers, result and error cleared, and the language kept |
| CodeEvaluation.CodeEvaluationPage.constructor | src/app/tools/code-evaluation/page.tsx:38-45 | the initial state: upload step, language `javascript`, nothing else |
| CodeEvaluation.CodeEvaluationPage.EditCode | src/app/tools/code-evaluation/page.tsx:218 | only the code changes |
| CodeEvaluation.CodeEvaluationPage.SelectLanguage | src/app/tools/code-evaluation/page.tsx:199 | only the language changes |
| CodeEvaluation.CodeEvaluationPage.GenerateQuestions | src/app/tools/code-evaluation/page.tsx:56-99 | no request for blank code, otherwise the questions request; the new state is `Generated` of the old |
| CodeEvaluation.CodeEvaluationPage.EvaluateAnswers | src/app/tools/code-evaluation/page.tsx:101-144 | the grading request built from the join; the new state is `Evaluated` of the old |
| CodeEvaluation.CodeEvaluationPage.EditAnswer | src/app/tools/code-evaluation/page.tsx:267-270 | the new state is `Edited` of the old |
| CodeEvaluation.CodeEvaluationPage.ResetEvaluation | src/app/tools/code-evaluation/page.tsx:146-153 | the new state is `Reset` of the old |

## Left out

- The `fetch` calls, to the route and from the route to the upstream service: network I/O. They are the parameters `api` and `send`, and the upstream's endpoint and headers are not modelled.
- `JSON.parse` and `JSON.stringify`: foreign calls, modelled as the parameters `parse` and `stringify`. A parse result's typed reading (`qcmData.questions`, `data.data` as questions or as an evaluation result) is the parameter `decode`.
- The randomness of `sort(() => Math.random() - 0.5)`: the model proves that the result is a permutation, not how permutations are distributed.
- Shuffle.ShuffledCopy: the comparator sort is modelled as a sequence of swaps chosen by the caller. The model does not claim that every permutation is reachable by the engine's sort.
- Exam.Percentage: exact rational arithmetic. In doubles, `23 / 40 * 100` is slightly below 57.5, so the page shows 57 where the model rounds to 58. Exams from the page have at most 20 questions.
- CodeEvaluation.Passes: `max_score * 0.7` is evaluated on exact rationals, not doubles.
- The temperature is an exact rational passed through unchanged.
- JSON fields the code reads without checking are assumed present and typed. Examples are a question without `correct_answer`, for which `undefined === undefined` would count as correct, and messages that are not an array.
- ApiClient.ErrorText: a truthy `error` that is not a string would be shown through `String()`; the model shows the fallback. The route only sends string errors (AiRoute.BodyOf).
- The `Erreur inconnue` branch of the pages' catch: every value thrown there is an `Error`, so the branch is not modelled.
- The `loading` flag and the concurrency of overlapping requests. Each handler runs from start to end with its reply.
- The `null` temperature or max_tokens a client could send (the destructuring defaults apply only to undefined values).
- The status limits of the `Response` constructor for an upstream status passed on unchanged.
- JSX rendering, styling and navigation. Only the enable guards of the controls are modelled, as predicates.
- Export to a file, the `localStorage` login gate, the code-analysis page and the layout, which hold no logic of the modelled core.

## Findings

| source | as written | input that shows it | evidently intended | confidence | as-written member | corrected member |
|---|---|---|---|---|---|---|
| src/app/api/ai/route.ts:121 | `systemPrompts[tool]` on an object literal also finds the names it inherits from Object.prototype, and every one of them is truthy | tool `"toString"`: a system message whose content (a function) `JSON.stringify` drops; tool `"__proto__"`: a system message with content `{}` | only the four table keys select a system prompt; any other tool sends the messages unchanged | not executed | Prompts.InheritedNameGetsSystemMessage | Prompts.SystemPrompt |

The route model (`AiRoute.FinalMessages` and everything that uses it) is built on the corrected own-key lookup. `Prompts.LookupAsWritten` and `Prompts.PrependedAsWritten` model the lookup as written.
