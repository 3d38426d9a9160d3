/** The shared records of the exam simulator (types.ts). Optional TypeScript
    properties (`x?: T`) become `Option<T>`; `number` becomes `int` for question
    ids and counts and `real` for band and criterion scores. */
module Types {

  datatype Option<+T> = None | Some(value: T)

  /** The outcome of an awaited call that may throw. */
  datatype Result<+T> = Success(value: T) | Failure(error: string)

  /** The four exam modules (the `TestModule` enum). */
  datatype TestModule = Listening | Reading | Writing | Speaking

  /** The string value each enum member carries. */
  function ModuleName(m: TestModule): (r: string)
    ensures r != []
  {
    match m
    case Listening => "Listening"
    case Reading => "Reading"
    case Writing => "Writing"
    case Speaking => "Speaking"
  }

  /** Distinct modules carry distinct names. */
  lemma ModuleNamesDistinct(m1: TestModule, m2: TestModule)
    requires m1 != m2
    ensures ModuleName(m1) != ModuleName(m2)
  {
  }

  datatype QuestionKind = MultipleChoice | TrueFalseNotGiven | FillGap

  datatype Question = Question(
    id: int,
    text: string,
    kind: QuestionKind,
    options: Option<seq<string>>,
    correctAnswer: string,
    questionTag: string)

  datatype WritingPrompt = WritingPrompt(task1: string, task2: string)

  datatype SpeakingPrompts = SpeakingPrompts(part1: seq<string>, part2: string, part3: seq<string>)

  /** Generated material: `questions` is always there (possibly empty), the rest is optional. */
  datatype TestContent = TestContent(
    passageText: Option<string>,
    audioScript: Option<string>,
    audioBase64: Option<string>,
    questions: seq<Question>,
    writingPrompt: Option<WritingPrompt>,
    speakingPrompts: Option<SpeakingPrompts>)

  datatype CriterionScore = CriterionScore(score: real, feedback: string)

  /** One key of `DetailedFeedback.criteria`, in insertion order. The value is
      `None` when the evaluator stored `undefined` under the key, which the
      declared type does not admit but the speaking and objective evaluators do
      when the examiner omits a criterion. */
  datatype Criterion = Criterion(name: string, score: Option<CriterionScore>)

  /** `improvementPlan` is `None` when the examiner's response carried none:
      the evaluators copy the `undefined` they read. */
  datatype DetailedFeedback = DetailedFeedback(
    bandScore: real,
    testModule: TestModule,
    criteria: seq<Criterion>,
    generalFeedback: string,
    improvementPlan: Option<seq<string>>)

  datatype TestResult = TestResult(
    testModule: TestModule,
    userAnswers: Option<map<int, string>>,
    rawScore: Option<int>,
    totalQuestions: Option<int>,
    feedback: DetailedFeedback)

  /** `m[k]`, which is `undefined` for a missing key. */
  function Get<K, V>(m: map<K, V>, k: K): (r: Option<V>)
    ensures r.Some? <==> k in m
    ensures r.Some? ==> r.value == m[k]
  {
    if k in m then Some(m[k]) else None
  }

  /** The keys of a criteria record, in order (`Object.keys`). */
  function Names(criteria: seq<Criterion>): (r: seq<string>)
    ensures |r| == |criteria|
    ensures forall i :: 0 <= i < |criteria| ==> r[i] == criteria[i].name
  {
    if criteria == [] then [] else [criteria[0].name] + Names(criteria[1..])
  }

  /** Every key of the record holds a score object. */
  predicate AllScored(criteria: seq<Criterion>) {
    forall i :: 0 <= i < |criteria| ==> criteria[i].score.Some?
  }
}
