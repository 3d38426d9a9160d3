/** components/Results.tsx: the results screen as a pure transform of a test
    result into what it shows. Reading `criteria[key].score` of a key whose
    value is `undefined` throws, and so does `improvementPlan.map` on a missing
    plan, so the transform yields `None` exactly when some criterion has no
    score or there is no plan. */
module Results {
  import opened Types
  import opened GeminiService

  /** The radar chart's maximum on every axis. */
  const FullMark := 9

  /** One radar-chart point: `{ subject: key, A: score, fullMark: 9 }`. */
  datatype ChartPoint = ChartPoint(subject: string, a: real, fullMark: int)

  /** One card of the criteria breakdown: the key, its band and its feedback. */
  datatype BreakdownRow = BreakdownRow(criterion: string, score: real, feedback: string)

  /** One improvement-plan step with its displayed number. */
  datatype PlanStep = PlanStep(number: nat, text: string)

  datatype ResultsPage = ResultsPage(
    bandScore: real,
    heading: string,
    chart: seq<ChartPoint>,
    generalFeedback: string,
    breakdown: seq<BreakdownRow>,
    plan: seq<PlanStep>)

  /** `Object.keys(criteria).map(…)`: one point per key, in key order, with the
      score as given (not clamped); `None` if some key has no score. */
  function ChartData(criteria: seq<Criterion>): (r: Option<seq<ChartPoint>>)
    ensures r.Some? <==> AllScored(criteria)
    ensures r.Some? ==> |r.value| == |criteria|
    ensures r.Some? ==> forall i :: 0 <= i < |criteria| ==>
      r.value[i] == ChartPoint(criteria[i].name, criteria[i].score.value.score, FullMark)
  {
    if criteria == [] then Some([])
    else
      var rest := ChartData(criteria[1..]);
      match criteria[0].score
      case None => None
      case Some(c) =>
        if rest.None? then None
        else Some([ChartPoint(criteria[0].name, c.score, FullMark)] + rest.value)
  }

  /** `Object.entries(criteria).map(…)`: one row per key, in the same order,
      with its score and feedback; `None` if some key has no score. */
  function Breakdown(criteria: seq<Criterion>): (r: Option<seq<BreakdownRow>>)
    ensures r.Some? <==> AllScored(criteria)
    ensures r.Some? ==> |r.value| == |criteria|
    ensures r.Some? ==> forall i :: 0 <= i < |criteria| ==>
      r.value[i] == BreakdownRow(criteria[i].name, criteria[i].score.value.score, criteria[i].score.value.feedback)
  {
    if criteria == [] then Some([])
    else
      var rest := Breakdown(criteria[1..]);
      match criteria[0].score
      case None => None
      case Some(c) =>
        if rest.None? then None
        else Some([BreakdownRow(criteria[0].name, c.score, c.feedback)] + rest.value)
  }

  /** The steps from `first` on, each with its number, in input order. */
  function NumberFrom(steps: seq<string>, first: nat): (r: seq<PlanStep>)
    ensures |r| == |steps|
    ensures forall i :: 0 <= i < |steps| ==> r[i] == PlanStep(first + i, steps[i])
  {
    if steps == [] then [] else [PlanStep(first, steps[0])] + NumberFrom(steps[1..], first + 1)
  }

  /** `improvementPlan.map((step, idx) => … idx + 1 …)`. */
  function NumberedPlan(steps: seq<string>): (r: seq<PlanStep>)
    ensures |r| == |steps|
    ensures forall i :: 0 <= i < |steps| ==> r[i].number == i + 1 && r[i].text == steps[i]
  {
    NumberFrom(steps, 1)
  }

  /** The whole screen: band score and general feedback as received, the
      module's heading, the chart, the breakdown and the numbered plan.
      Rendering fails exactly when some criterion has no score or the plan is
      missing. */
  function Present(result: TestResult): (r: Option<ResultsPage>)
    ensures r.Some? <==> AllScored(result.feedback.criteria) && result.feedback.improvementPlan.Some?
    ensures r.Some? ==>
      && r.value.bandScore == result.feedback.bandScore
      && r.value.generalFeedback == result.feedback.generalFeedback
      && r.value.heading == ModuleName(result.testModule) + " Module Assessment"
      && Some(r.value.chart) == ChartData(result.feedback.criteria)
      && Some(r.value.breakdown) == Breakdown(result.feedback.criteria)
      && r.value.plan == NumberedPlan(result.feedback.improvementPlan.value)
  {
    var fb := result.feedback;
    var chart := ChartData(fb.criteria);
    var rows := Breakdown(fb.criteria);
    if chart.None? || rows.None? || fb.improvementPlan.None? then None
    else Some(ResultsPage(fb.bandScore, ModuleName(result.testModule) + " Module Assessment",
                          chart.value, fb.generalFeedback, rows.value, NumberedPlan(fb.improvementPlan.value)))
  }

  /** Every chart point sits on the same scale as its breakdown row. */
  lemma ChartMatchesBreakdown(criteria: seq<Criterion>, i: nat)
    requires AllScored(criteria) && i < |criteria|
    ensures ChartData(criteria).value[i].subject == Breakdown(criteria).value[i].criterion
    ensures ChartData(criteria).value[i].a == Breakdown(criteria).value[i].score
  {
  }

  /** Missing criteria never stop writing feedback from rendering: the fallback
      fills every criterion, so it renders exactly when the response carried a
      plan, with the four writing criteria on the chart. */
  lemma WritingResultsRender(raw: RawFeedback, result: TestResult)
    requires EvaluateWriting(raw).Some? && result.feedback == EvaluateWriting(raw).value
    ensures Present(result).Some? <==> raw.improvementPlan.Some?
    ensures Present(result).Some? ==> |Present(result).value.chart| == 4
    ensures Present(result).Some? ==>
      forall i :: 0 <= i < 4 ==> Present(result).value.chart[i].subject == WritingCriteria[i]
  {
  }

  /** Speaking feedback renders exactly when the examiner returned all four
      criteria and a plan. */
  lemma SpeakingResultsRenderIff(raw: RawFeedback, result: TestResult)
    requires EvaluateSpeaking(raw).Some? && result.feedback == EvaluateSpeaking(raw).value
    ensures Present(result).Some? <==> raw.criteria.value.Complete() && raw.improvementPlan.Some?
  {
  }

  /** Reading and listening feedback renders exactly when the examiner
      returned all four criteria and a plan. */
  lemma ObjectiveResultsRenderIff(m: TestModule, raw: RawFeedback, result: TestResult)
    requires EvaluateObjectiveTest(m, raw).Some? && result.feedback == EvaluateObjectiveTest(m, raw).value
    ensures Present(result).Some? <==> raw.criteria.value.Complete() && raw.improvementPlan.Some?
  {
  }
}
