# GATE IELTS exam simulator — a verified model of its deterministic core

The simulator is a React front end over a remote language model. The model
generates the reading, listening, writing and speaking material and grades the
answers. This project models, in Dafny, the logic that the front end itself
runs:

- **Scoring.** An objective test is scored locally by comparing the recorded
  answer with the accepted one, after lower-casing and trimming both.
- **Answer collection.** Answers are kept in a map from question id to text.
  The writing screen keeps two texts.
- **Test session.** The runner's state is modelled as a class:
  - content loading and its failure path;
  - the five-step speaking sequence;
  - the recorder's chunk buffer;
  - the listening play/pause toggle;
  - the guards on the three submit paths.
- **Feedback post-processing.** The per-question performance summary and the
  renaming of the examiner's `criterion1..4` into each module's four named
  criteria.
- **Results screen.** Radar-chart points, the criteria breakdown and the
  numbered improvement plan.
- **Navigation.** The app-level switch between the dashboard, a running test
  and the results.

The remote model is a parameter. A content load receives what the generator
resolved to (`Result<Generated>`). A grading submit receives the examiner as a
function from its request to its parsed raw response (`examiner`).

Modules, one per source file:

| module | file | source |
|---|---|---|
| `Types` | types.dfy | types.ts |
| `Text` | text.dfy | the `toLowerCase().trim()` comparison shared by components/TestRunner.tsx and services/geminiService.ts |
| `GeminiService` | gemini_service.dfy | services/geminiService.ts |
| `TestRunner` | test_runner.dfy | components/TestRunner.tsx |
| `Results` | results.dfy | components/Results.tsx |
| `AppShell` | app.dfy | App.tsx |

### Behaviour of the code worth knowing

- **Missing criterion.** When the examiner omits a criterion, only the writing
  evaluator falls back to `{0, "N/A"}`. The speaking and objective evaluators
  store `undefined` under that key, and the results screen then throws when it
  reads `.score`. `Results.SpeakingResultsRenderIff` and
  `Results.ObjectiveResultsRenderIff` state exactly when rendering succeeds.
- **Missing plan.** The response schema requires no field. When the examiner
  omits `improvementPlan`, every evaluator copies `undefined`, and the results
  screen throws at `improvementPlan.map`. This includes writing feedback.
- **Stop & Submit needs two presses.** The button schedules the
  `submitSpeaking` of the render it was clicked in. On the first press that
  render has no recording yet, because the recorder's `onstop` sets it only
  after the stop. So the first press stops the recording and submits nothing,
  and only a second press submits. `TestRunner.SpeakingNeedsTwoStopPresses`
  runs this sequence.
- **Double submission.** The Stop & Submit button stays on screen, so each
  further press once the recording is set schedules another `submitSpeaking`
  with the same recording, and `onComplete` fires once per press. If the user
  goes back between two completions, the later one shows its result with no
  module selected. `AppShell.LateCompletionAfterBack` exhibits that state, and
  `AppShell.RunKeepsShowing` shows the screen switch still never goes blank.
- **Grading failure.** A failed grading call is not caught. `loading` stays
  true, and nothing leads back to the form.
- **Objective submit without content.** It sets `loading` before its guard, so
  the runner stays on the spinner.
- **Microphone denied.** A denied microphone only raises an alert. The
  speaking step has already moved to 1, and the session is not cancelled.
- **Behaviour the code does not have.** There is no "already recording" error
  and no discarding of stale responses.
- **Chart scores.** A chart score is shown as received, without clamping to
  0..9.
- **Empty writing.** Empty writing texts are sent for grading as they are.

## Model

| member | source | states |
|---|---|---|
| Types.ModuleNamesDistinct | types.ts:1-6 | the four modules carry four distinct string values |
| Types.ModuleName | types.ts:1-6 | each module's string value, as shown in the results heading, is non-empty |
| Types.Get | components/TestRunner.tsx:71 | indexing a record yields a value exactly for a present key, and that key's value |
| Types.Names | types.ts:38-44 | the keys of a criteria record, one per entry, in insertion order |
| Text.LowerChar | components/TestRunner.tsx:71 | an upper-case ASCII letter becomes its own lower-case letter (code point + 32); no upper-case letter results; every other character is unchanged, and white space stays white space |
| Text.LowerCharInjectiveOnLetters | components/TestRunner.tsx:71 | distinct upper-case letters stay distinct after lower-casing, so answers differing in a letter do not match |
| Text.Lower | components/TestRunner.tsx:71 | `toLowerCase` keeps the length and lower-cases each character in place |
| Text.TrimStartSpec | components/TestRunner.tsx:71 | the leading trim drops exactly the longest white-space prefix |
| Text.TrimEndSpec | components/TestRunner.tsx:71 | the trailing trim drops exactly the longest white-space suffix |
| Text.TrimSpec | components/TestRunner.tsx:71 | `trim` keeps one slice of its input with white space only around it, and the slice neither starts nor ends with white space |
| Text.Trim | components/TestRunner.tsx:71 | `trim`: the leading trim followed by the trailing trim, characterised by `TrimSpec` |
| Text.TrimOfTrimmed | components/TestRunner.tsx:71 | a string without surrounding white space is its own trim |
| Text.LowerOfLower | components/TestRunner.tsx:71 | a string without upper-case letters is its own lower-casing |
| Text.NoUpperInSlice | components/TestRunner.tsx:71 | no slice of a lower-cased string holds an upper-case letter |
| Text.NormalizeIdempotent | components/TestRunner.tsx:71 | lower-casing and trimming twice equals doing it once |
| Text.SameAnswer | components/TestRunner.tsx:71 | the `===` of the two lower-cased, trimmed strings, where a missing answer matches nothing |
| Text.SameAnswerSymmetric | services/geminiService.ts:267 | the comparison gives the same verdict with its two sides exchanged |
| Text.SameAnswerIgnoresNormalization | services/geminiService.ts:267 | the answer comparison ignores case and surrounding white space on either side |
| GeminiService.CriteriaNamesDistinct | services/geminiService.ts:199-308 | the writing (199-204), speaking (245-250) and objective (303-308) evaluators each use four pairwise distinct criterion names |
| GeminiService.Relabel | services/geminiService.ts:245-250 | the renamed record has exactly the given four names, in order, holding criterion1..4 |
| GeminiService.OrNotAvailable | services/geminiService.ts:200-203 | every criterion is present afterwards: the given one, or `{0, "N/A"}` when missing |
| GeminiService.EvaluateWriting | services/geminiService.ts:196-207 | fails exactly when the response has no criteria; otherwise the module is Writing, band, general feedback and plan are copied, the four writing names appear in order, and each takes criterionN or `{0, "N/A"}`, so every key is scored |
| GeminiService.EvaluateSpeaking | services/geminiService.ts:242-253 | fails exactly when the response has no criteria; otherwise the module is Speaking, band, general feedback and plan are copied, the four speaking names take criterion1..4 unchanged, and every key is scored iff all four were returned |
| GeminiService.EvaluateObjectiveTest | services/geminiService.ts:300-311 | fails exactly when the response has no criteria; otherwise the module is the one passed in, band, general feedback and plan are copied, the four objective names take criterion1..4 unchanged, and every key is scored iff all four were returned |
| GeminiService.PerformanceSummary | services/geminiService.ts:265-270 | one entry per question, in order, with its tag, the lower/trim verdict on the recorded answer, the recorded answer (missing if none) and the accepted answer |
| GeminiService.CorrectEntries | services/geminiService.ts:265-270 | the number of entries marked correct is at most the number of entries |
| GeminiService.ListeningTest | services/geminiService.ts:102-106 | the listening record keeps the parsed fields, copies the passage into `audioScript` and carries the synthesised audio |
| TestRunner.CountWhere | components/TestRunner.tsx:69-74 | a count of matching elements is at most the length |
| TestRunner.CountWhereIsCardinality | components/TestRunner.tsx:69-74 | counting front to back equals the number of positions whose element matches |
| TestRunner.CountWhereNone | components/TestRunner.tsx:69-74 | when no element matches, the count is 0 |
| TestRunner.IsCorrect | components/TestRunner.tsx:71 | the verdict on one question; a correct question has a recorded answer |
| TestRunner.CountCorrect | components/TestRunner.tsx:69-74 | the raw score lies between 0 and the number of questions |
| TestRunner.CountIsCorrectPositions | components/TestRunner.tsx:69-74 | the raw score is the number of questions whose recorded answer, lower-cased and trimmed, equals the accepted answer, lower-cased and trimmed; an unanswered question never counts |
| TestRunner.NoAnswersScoreZero | components/TestRunner.tsx:69-74 | with no answers recorded, the raw score is 0 |
| TestRunner.RawScore | components/TestRunner.tsx:69-74 | the `score++` loop computes exactly the raw score |
| TestRunner.SummaryAgreesWithRawScore | services/geminiService.ts:265-270 | the summary sent to the examiner marks as many entries correct as the runner's raw score |
| TestRunner.RecordAnswer | components/TestRunner.tsx:296 | an answer edit sets its id to the new value, overwriting any earlier one, and keeps every other id and its value |
| TestRunner.RecordAnswerKeepsOtherVerdicts | components/TestRunner.tsx:296 | an edit for one id leaves the verdict on every question with another id unchanged |
| TestRunner.RecordAnswerScoreChange | components/TestRunner.tsx:296 | an edit moves the raw score by at most the number of questions that carry the edited id |
| TestRunner.RecordAnswerScoresOnlyItsId | components/TestRunner.tsx:69-74 | corollary of the bound above: an edit to an id no question carries leaves the raw score unchanged |
| TestRunner.RecordAcceptedAnswer | components/TestRunner.tsx:321 | entering the accepted answer, in any case and with any surrounding white space, makes that question correct |
| TestRunner.EditTask | components/TestRunner.tsx:229-239 | editing one writing task changes only that task's text |
| TestRunner.ControlAt | components/TestRunner.tsx:176-213 | the start button only at step 0, "Stop & Submit" only at step 4, the "Next Part"/"Finish Test" buttons only with loaded prompts, "Next Part" at steps 1 and 2 and "Finish Test" at step 3, and some control at every step up to 4 once prompts are loaded |
| TestRunner.StepAfter | components/TestRunner.tsx:177-203 | each advancing button moves the step up by exactly one |
| TestRunner.NonEmptyChunks | components/TestRunner.tsx:99-103 | the buffer is no longer than the chunks delivered, holds only non-empty chunks, and equals them when none is empty |
| TestRunner.NonEmptyChunksMembers | components/TestRunner.tsx:99-103 | a chunk is in the buffer exactly when it arrived and is non-empty |
| TestRunner.NonEmptyChunksSingle | components/TestRunner.tsx:102 | one delivered chunk is kept exactly when it is non-empty |
| TestRunner.NonEmptyChunksAppend | components/TestRunner.tsx:102 | the buffer of two deliveries in a row is the first one's buffer followed by the second one's, so chunks keep their arrival order and multiplicity |
| TestRunner.ContentOf | components/TestRunner.tsx:37-54 | reading content is stored as generated; listening content is the listening record, with the script as `audioScript` and the synthesised audio; writing and speaking content has no questions, no passage, no script and no audio, only its own prompts |
| TestRunner.HasAudio | components/TestRunner.tsx:43 | a player is made only for a present, non-empty audio string |
| TestRunner.Runner.constructor | components/TestRunner.tsx:13-27 | the initial state: loading, no content, no answers, empty writing texts, step 0, no recorder, no recording, no player |
| TestRunner.Runner.LoadTestContent | components/TestRunner.tsx:34-62 | a failure cancels the session; a success stores the generated content and makes a player only for non-empty listening audio; loading is false afterwards |
| TestRunner.Runner.SetAnswer | components/TestRunner.tsx:296 | the answer map becomes the one-key update, and nothing else changes |
| TestRunner.Runner.EditWriting | components/TestRunner.tsx:229-239 | the writing texts become the one-task update, and nothing else changes |
| TestRunner.Runner.SubmitObjective | components/TestRunner.tsx:64-78 | loading starts; without content nothing else happens; otherwise the examiner gets the raw score, the question count and the summary, and a gradable response completes the session with the module, the raw score and the question count |
| TestRunner.Runner.SubmitWriting | components/TestRunner.tsx:80-90 | loading starts; without a writing prompt nothing else happens; otherwise the texts go to the examiner unchanged, even when empty, and a gradable response completes the session |
| TestRunner.Runner.StartRecording | components/TestRunner.tsx:94-116 | with microphone access recording starts on an emptied buffer; without it nothing changes |
| TestRunner.Runner.ChunkAvailable | components/TestRunner.tsx:101-103 | a non-empty chunk is appended to the buffer and an empty one is dropped |
| TestRunner.Runner.RecorderStopped | components/TestRunner.tsx:105-108 | the payload is the buffered non-empty chunks, in order, tagged `audio/webm` |
| TestRunner.Runner.StopRecording | components/TestRunner.tsx:118-123 | recording is false afterwards, and nothing else changes |
| TestRunner.Runner.PressSpeakingControl | components/TestRunner.tsx:176-211 | steps 0 to 3 advance by one and schedule nothing, and the press at 0 starts recording on an empty buffer, or without a microphone leaves the recorder as it was; the press at step 4 keeps the step, stops recording and schedules a submission that sees the recording as it was before the press |
| TestRunner.Runner.SubmitSpeaking | components/TestRunner.tsx:125-135 | without a recording in the scheduling render nothing happens; otherwise loading starts, that recording and the prompts go to the examiner, and a gradable response completes the session |
| TestRunner.Runner.ToggleAudio | components/TestRunner.tsx:137-145 | without a player nothing changes; otherwise play/pause flips |
| TestRunner.Runner.AudioEnded | components/TestRunner.tsx:46 | when playback ends it is shown as paused |
| TestRunner.SpeakingNeedsTwoStopPresses | components/TestRunner.tsx:206-211 | in a whole speaking session, the first Stop & Submit schedules a submission that sees no recording, and the press after the recorder stops submits exactly the non-empty chunks delivered, as `audio/webm`; a third press submits the same recording again |
| Results.ChartData | components/Results.tsx:15-19 | one point per criterion, in key order, with the key, the unclamped score and full mark 9; fails exactly when some key has no score object (it holds `undefined`) |
| Results.Breakdown | components/Results.tsx:62-74 | one row per criterion, in the same order, with key, score and feedback; fails exactly when some key has no score object (it holds `undefined`) |
| Results.NumberFrom | components/Results.tsx:83-90 | the steps in input order, numbered consecutively from the first number |
| Results.NumberedPlan | components/Results.tsx:83-90 | the improvement steps in input order, the step at index i numbered i + 1 |
| Results.Present | components/Results.tsx:15-90 | the screen shows the band score and general feedback unchanged, with the chart, the breakdown and the numbered plan; rendering fails exactly when some criterion has no score object (its key holds `undefined`) or the plan is missing |
| Results.ChartMatchesBreakdown | components/Results.tsx:15-19 | each chart point and its breakdown row show the same criterion and score |
| Results.WritingResultsRender | services/geminiService.ts:196-207 | missing criteria never stop writing feedback from rendering: it renders exactly when the response carried a plan, with the four writing criteria on the chart |
| Results.SpeakingResultsRenderIff | services/geminiService.ts:242-253 | speaking feedback renders exactly when the examiner returned all four criteria and a plan |
| Results.ObjectiveResultsRenderIff | services/geminiService.ts:300-311 | reading and listening feedback renders exactly when the examiner returned all four criteria and a plan |
| AppShell.AfterStartTest | App.tsx:13-16 | the test view with the chosen module; the last result is kept |
| AppShell.AfterTestComplete | App.tsx:18-21 | the results view with the new result; the selected module is kept |
| AppShell.AfterGoBack | App.tsx:23-27 | from any state: the dashboard, no module, no result |
| AppShell.GoBackIdempotent | App.tsx:23-27 | going back twice is going back once |
| AppShell.Render | App.tsx:31-43 | the dashboard exactly on the dashboard view; the runner exactly on the test view with a module; the results exactly on the results view with a result |
| AppShell.Step | App.tsx:31-42 | selecting a module starts the test, completing stores the result, and cancelling and going back both lead to the initial state |
| AppShell.SettledRendersScreen | App.tsx:31-43 | a settled state never leaves the layout empty |
| AppShell.StepKeepsSettled | App.tsx:33-42 | a callback raised by the mounted screen keeps the state settled; cancelling and going back both reset through `goBack` |
| AppShell.RunKeepsSettled | App.tsx:9-27 | after any sequence of callbacks raised by the mounted screens: results shown means a result for the selected module is stored, and the test view means a module is selected |
| AppShell.NeverBlankFromInitial | App.tsx:9-11 | from the initial state, every sequence of callbacks raised by the mounted screens shows one of the three screens |
| AppShell.RunKeepsShowing | App.tsx:9-43 | after any sequence of callbacks whatever, including late ones from an unmounted runner, the test view has a module and the results view a result, so the layout is never empty |
| AppShell.LateCompletionAfterBack | App.tsx:13-27 | a completion arriving after going back shows its result with no module selected, a state outside the mounted-screens invariant |
| AppShell.App.constructor | App.tsx:9-11 | the initial state: the dashboard, no module, no result |
| AppShell.App.StartTest | App.tsx:13-16 | the fields become the `startTest` transition of their old values |
| AppShell.App.HandleTestComplete | App.tsx:18-21 | the fields become the `handleTestComplete` transition of their old values |
| AppShell.App.GoBack | App.tsx:23-27 | the fields become the `goBack` transition of their old values |

## Left out

- The remote model calls (content generation, text-to-speech and grading), their prompt strings, response schemas and `JSON.parse`. Generated content is an input, and each examiner is a function parameter returning the parsed raw response.
- The runner treats the parsed content as having a `questions` array. A response whose JSON lacks it, or that cannot be parsed, is not modelled beyond the load-failure path.
- `FileReader` base64 encoding of the recording. The speaking examiner receives the recording itself.
- `getUserMedia` and `MediaRecorder` are reduced to a `micGranted` flag and chunk delivery. The `Audio` element is reduced to a `hasPlayer` flag.
- `alert` and `console` output.
- The 500 ms `setTimeout` between stopping the recorder and submitting, and every interleaving of awaited calls with other events. These are timing and concurrency.
- The band-score heuristic. It is only prompt text for the remote model.
- A response without `bandScore` or `generalFeedback`. The screen then shows those values empty rather than throwing; the model treats both as present.
- Results.Present: a criterion object without `score` or `feedback` is not modelled. The response schema requires neither (services/geminiService.ts:37-40), and the screen then shows an undefined chart value and an empty band label rather than throwing; the model treats a criterion as either absent or complete.
- TestRunner.ContentOf: writing and speaking prompts missing a field are not modelled. The prompt schemas require none (services/geminiService.ts:121-124, 147-150); a speaking response without `part1` makes the step-1 screen throw at `part1.map` (components/TestRunner.tsx:185).
- JSX layout, styling and the recharts drawing. The dashboard's four buttons appear only as `SelectModule` events, and the page chrome is not modelled.
- Text.Lower: lower-cases ASCII letters only, because full Unicode case mapping is outside the model. `trim` uses the exact ECMAScript white-space set.
- TestRunner.Runner.SubmitObjective: a grading call that throws is modelled as a response without criteria, and leaves the outcome as it was.
- TestRunner.Runner.SubmitWriting: a grading call that throws is modelled as a response without criteria, and leaves the outcome as it was.
- TestRunner.Runner.SubmitSpeaking: a grading call that throws is modelled as a response without criteria, and leaves the outcome as it was.
