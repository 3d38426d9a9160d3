/** The deterministic parts of services/geminiService.ts: the per-question
    performance summary, the renaming of the examiner's generic `criterion1..4`
    into each module's readable criteria, and the listening record. The calls
    to the remote model and the parsing of its JSON are not modelled: each
    evaluator receives the already-parsed raw response `raw`. */
module GeminiService {
  import opened Types
  import opened Text

  /** `raw.criteria` as parsed: each of the four entries may be absent. */
  datatype RawCriteria = RawCriteria(
    criterion1: Option<CriterionScore>,
    criterion2: Option<CriterionScore>,
    criterion3: Option<CriterionScore>,
    criterion4: Option<CriterionScore>)
  {
    /** `criterion<n>`, for n in 1..4. */
    function Nth(n: nat): Option<CriterionScore>
      requires 1 <= n <= 4
    {
      if n == 1 then criterion1 else if n == 2 then criterion2 else if n == 3 then criterion3 else criterion4
    }

    predicate Complete() {
      criterion1.Some? && criterion2.Some? && criterion3.Some? && criterion4.Some?
    }
  }

  /** The parsed examiner response. The response schema requires no field:
      `criteria` is `None` when the response has no `criteria` object, in which
      case reading `raw.criteria.criterion1` throws, and `improvementPlan` is
      `None` when the response has no plan. */
  datatype RawFeedback = RawFeedback(
    bandScore: real,
    criteria: Option<RawCriteria>,
    generalFeedback: string,
    improvementPlan: Option<seq<string>>)

  const WritingCriteria: seq<string> :=
    ["Task Achievement", "Coherence & Cohesion", "Lexical Resource", "Grammatical Range"]
  const SpeakingCriteria: seq<string> :=
    ["Fluency & Coherence", "Lexical Resource", "Grammatical Range", "Pronunciation"]
  const ObjectiveCriteria: seq<string> :=
    ["Main Ideas", "Specific Details", "Inference & Logic", "Vocabulary"]

  /** The writing evaluator's stand-in for a missing criterion. */
  const NotAvailable := CriterionScore(0.0, "N/A")

  /** Each module's four names are pairwise distinct, so each record has four keys. */
  lemma CriteriaNamesDistinct()
    ensures forall i, j :: 0 <= i < j < 4 ==> WritingCriteria[i] != WritingCriteria[j]
    ensures forall i, j :: 0 <= i < j < 4 ==> SpeakingCriteria[i] != SpeakingCriteria[j]
    ensures forall i, j :: 0 <= i < j < 4 ==> ObjectiveCriteria[i] != ObjectiveCriteria[j]
  {
  }

  /** The object literal `{ names[0]: c.criterion1, …, names[3]: c.criterion4 }`. */
  function Relabel(names: seq<string>, c: RawCriteria): (r: seq<Criterion>)
    requires |names| == 4
    ensures |r| == 4 && Names(r) == names
    ensures forall i :: 0 <= i < 4 ==> r[i].score == c.Nth(i + 1)
  {
    [Criterion(names[0], c.criterion1), Criterion(names[1], c.criterion2),
     Criterion(names[2], c.criterion3), Criterion(names[3], c.criterion4)]
  }

  /** `c.criterionN || { score: 0, feedback: "N/A" }` for each N. */
  function OrNotAvailable(c: RawCriteria): (r: RawCriteria)
    ensures r.Complete()
    ensures forall n :: 1 <= n <= 4 ==>
      r.Nth(n) == (if c.Nth(n).Some? then c.Nth(n) else Some(NotAvailable))
  {
    RawCriteria(
      Some(if c.criterion1.Some? then c.criterion1.value else NotAvailable),
      Some(if c.criterion2.Some? then c.criterion2.value else NotAvailable),
      Some(if c.criterion3.Some? then c.criterion3.value else NotAvailable),
      Some(if c.criterion4.Some? then c.criterion4.value else NotAvailable))
  }

  /** The common shape of the three evaluators' results: the module, the given
      criteria, and band score, general feedback and plan copied from `raw`. */
  ghost predicate Reshapes(raw: RawFeedback, m: TestModule, names: seq<string>, fb: DetailedFeedback)
    requires |names| == 4
  {
    && fb.testModule == m
    && fb.bandScore == raw.bandScore
    && fb.generalFeedback == raw.generalFeedback
    && fb.improvementPlan == raw.improvementPlan
    && Names(fb.criteria) == names
  }

  /** `evaluateWriting` after the remote call: the four writing criteria, each
      falling back to `{0, "N/A"}`, so the record is always fully scored. Throws
      (`None`) only when the response has no `criteria` object. */
  function EvaluateWriting(raw: RawFeedback): (r: Option<DetailedFeedback>)
    ensures r.Some? <==> raw.criteria.Some?
    ensures r.Some? ==> Reshapes(raw, Writing, WritingCriteria, r.value)
    ensures r.Some? ==> AllScored(r.value.criteria)
    ensures r.Some? ==> forall i :: 0 <= i < 4 ==>
      r.value.criteria[i].score ==
        (if raw.criteria.value.Nth(i + 1).Some? then raw.criteria.value.Nth(i + 1) else Some(NotAvailable))
  {
    match raw.criteria
    case None => None
    case Some(c) =>
      Some(DetailedFeedback(raw.bandScore, Writing, Relabel(WritingCriteria, OrNotAvailable(c)),
                            raw.generalFeedback, raw.improvementPlan))
  }

  /** `evaluateSpeaking` after the remote call: the four speaking criteria taken
      as they are, so a missing one leaves its key without a score. */
  function EvaluateSpeaking(raw: RawFeedback): (r: Option<DetailedFeedback>)
    ensures r.Some? <==> raw.criteria.Some?
    ensures r.Some? ==> Reshapes(raw, Speaking, SpeakingCriteria, r.value)
    ensures r.Some? ==> forall i :: 0 <= i < 4 ==> r.value.criteria[i].score == raw.criteria.value.Nth(i + 1)
    ensures r.Some? ==> (AllScored(r.value.criteria) <==> raw.criteria.value.Complete())
  {
    match raw.criteria
    case None => None
    case Some(c) =>
      var criteria := Relabel(SpeakingCriteria, c);
      assert criteria[0].score == c.criterion1 && criteria[1].score == c.criterion2;
      assert criteria[2].score == c.criterion3 && criteria[3].score == c.criterion4;
      Some(DetailedFeedback(raw.bandScore, Speaking, criteria, raw.generalFeedback, raw.improvementPlan))
  }

  /** `evaluateObjectiveTest` after the remote call: the four reading/listening
      pseudo-criteria taken as they are, under the module passed in. */
  function EvaluateObjectiveTest(m: TestModule, raw: RawFeedback): (r: Option<DetailedFeedback>)
    ensures r.Some? <==> raw.criteria.Some?
    ensures r.Some? ==> Reshapes(raw, m, ObjectiveCriteria, r.value)
    ensures r.Some? ==> forall i :: 0 <= i < 4 ==> r.value.criteria[i].score == raw.criteria.value.Nth(i + 1)
    ensures r.Some? ==> (AllScored(r.value.criteria) <==> raw.criteria.value.Complete())
  {
    match raw.criteria
    case None => None
    case Some(c) =>
      var criteria := Relabel(ObjectiveCriteria, c);
      assert criteria[0].score == c.criterion1 && criteria[1].score == c.criterion2;
      assert criteria[2].score == c.criterion3 && criteria[3].score == c.criterion4;
      Some(DetailedFeedback(raw.bandScore, m, criteria, raw.generalFeedback, raw.improvementPlan))
  }

  /** One element of `performanceSummary`; `userAnswer` is `undefined` when unanswered. */
  datatype SummaryEntry = SummaryEntry(
    tag: string,
    isCorrect: bool,
    userAnswer: Option<string>,
    correctAnswer: string)

  /** `questions.map(q => …)`: one entry per question, in order, judged by the
      same case- and space-insensitive comparison the test runner scores with. */
  function PerformanceSummary(questions: seq<Question>, answers: map<int, string>): (r: seq<SummaryEntry>)
    ensures |r| == |questions|
    ensures forall i :: 0 <= i < |questions| ==>
      r[i] == SummaryEntry(questions[i].questionTag,
                           SameAnswer(Get(answers, questions[i].id), questions[i].correctAnswer),
                           Get(answers, questions[i].id),
                           questions[i].correctAnswer)
  {
    if questions == [] then []
    else
      var q := questions[|questions| - 1];
      PerformanceSummary(questions[..|questions| - 1], answers)
        + [SummaryEntry(q.questionTag, SameAnswer(Get(answers, q.id), q.correctAnswer), Get(answers, q.id), q.correctAnswer)]
  }

  /** The number of entries marked correct. */
  function CorrectEntries(summary: seq<SummaryEntry>): (r: nat)
    ensures r <= |summary|
  {
    if summary == [] then 0
    else CorrectEntries(summary[..|summary| - 1]) + (if summary[|summary| - 1].isCorrect then 1 else 0)
  }

  /** What each evaluator puts into its prompt, and so all the remote examiner
      sees: the inputs of a grading request. */
  datatype ObjectivePrompt = ObjectivePrompt(
    testModule: TestModule, totalScore: int, questionCount: int, summary: seq<SummaryEntry>)
  datatype WritingSubmission = WritingSubmission(
    task1: string, task2: string, prompt1: string, prompt2: string)

  /** `generateListeningTest`'s result: the parsed content with the script kept
      as `audioScript` and the synthesised audio as `audioBase64`. */
  function ListeningTest(parsed: TestContent, audioData: Option<string>): (r: TestContent)
    ensures r.audioScript == parsed.passageText && r.audioBase64 == audioData
    ensures r.passageText == parsed.passageText && r.questions == parsed.questions
    ensures r.writingPrompt == parsed.writingPrompt && r.speakingPrompts == parsed.speakingPrompts
  {
    parsed.(audioScript := parsed.passageText, audioBase64 := audioData)
  }
}
