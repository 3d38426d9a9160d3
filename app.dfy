/** App.tsx: the top-level screen switch. Its three pieces of hook state form
    `AppState`; its three callbacks are the pure transitions `AfterStartTest`,
    `AfterTestComplete` and `AfterGoBack`, and the class `App` applies them in
    place. `Render` is the conditional rendering of the three screens. */
module AppShell {
  import opened Types

  datatype View = Dashboard | Test | ResultsView

  datatype AppState = AppState(view: View, selectedModule: Option<TestModule>, result: Option<TestResult>)

  /** The initial hook state: the dashboard, nothing selected, no result. */
  const Initial := AppState(Dashboard, None, None)

  /** `startTest(module)`: the module is selected and the test view shown; the
      last result is kept. */
  function AfterStartTest(s: AppState, m: TestModule): (r: AppState)
    ensures r.view == Test && r.selectedModule == Some(m) && r.result == s.result
  {
    AppState(Test, Some(m), s.result)
  }

  /** `handleTestComplete(result)`: the result is stored and the results view
      shown; the selected module is kept. */
  function AfterTestComplete(s: AppState, res: TestResult): (r: AppState)
    ensures r.view == ResultsView && r.result == Some(res) && r.selectedModule == s.selectedModule
  {
    AppState(ResultsView, s.selectedModule, Some(res))
  }

  /** `goBack`: back to the initial state, from wherever it is called. */
  function AfterGoBack(s: AppState): (r: AppState)
    ensures r == Initial
  {
    AppState(Dashboard, None, None)
  }

  /** Going back twice is going back once. */
  lemma GoBackIdempotent(s: AppState)
    ensures AfterGoBack(AfterGoBack(s)) == AfterGoBack(s)
  {
  }

  /** What is mounted inside the layout. */
  datatype Screen = DashboardScreen | TestRunnerScreen(m: TestModule) | ResultsScreen(r: TestResult) | Blank

  /** The three guarded children: the dashboard for the dashboard view, the
      runner only when a module is selected, the results only when a result is
      stored; otherwise the layout is empty. */
  function Render(s: AppState): (r: Screen)
    ensures r == DashboardScreen <==> s.view == Dashboard
    ensures r.TestRunnerScreen? <==> s.view == Test && s.selectedModule.Some?
    ensures r.TestRunnerScreen? ==> r.m == s.selectedModule.value
    ensures r.ResultsScreen? <==> s.view == ResultsView && s.result.Some?
    ensures r.ResultsScreen? ==> r.r == s.result.value
  {
    match s.view
    case Dashboard => DashboardScreen
    case Test => if s.selectedModule.Some? then TestRunnerScreen(s.selectedModule.value) else Blank
    case ResultsView => if s.result.Some? then ResultsScreen(s.result.value) else Blank
  }

  /** A callback invocation by a mounted child. */
  datatype Event = SelectModule(m: TestModule) | Complete(result: TestResult) | Cancel | Back

  /** The callback each event invokes: `onSelectModule` is `startTest`,
      `onComplete` is `handleTestComplete`, and `onCancel` and `onBack` are both
      `goBack`. */
  function Step(s: AppState, e: Event): (r: AppState)
    ensures e.SelectModule? ==> r.view == Test && r.selectedModule == Some(e.m) && r.result == s.result
    ensures e.Complete? ==> r.view == ResultsView && r.result == Some(e.result) && r.selectedModule == s.selectedModule
    ensures e.Cancel? || e.Back? ==> r == Initial
  {
    match e
    case SelectModule(m) => AfterStartTest(s, m)
    case Complete(res) => AfterTestComplete(s, res)
    case Cancel => AfterGoBack(s)
    case Back => AfterGoBack(s)
  }

  /** The events a screen can raise: the dashboard selects a module; the
      runner completes with a result for its own module or cancels; the results
      screen goes back; an empty layout raises nothing. */
  predicate Offered(screen: Screen, e: Event) {
    match screen
    case DashboardScreen => e.SelectModule?
    case TestRunnerScreen(m) => (e.Complete? && e.result.testModule == m) || e.Cancel?
    case ResultsScreen(_) => e.Back?
    case Blank => false
  }

  /** Each event in turn is raised by the screen mounted at that moment. */
  predicate Drives(s: AppState, events: seq<Event>)
    decreases events
  {
    events == [] || (Offered(Render(s), events[0]) && Drives(Step(s, events[0]), events[1..]))
  }

  /** The state after the events, in order. */
  function Run(s: AppState, events: seq<Event>): AppState
    decreases events
  {
    if events == [] then s else Run(Step(s, events[0]), events[1..])
  }

  /** The states the app can be in: on the dashboard nothing is selected or
      stored; during a test a module is selected and no result stored; on the
      results view the stored result belongs to the selected module. */
  predicate Settled(s: AppState) {
    match s.view
    case Dashboard => s.selectedModule == None && s.result == None
    case Test => s.selectedModule.Some? && s.result == None
    case ResultsView => s.result.Some? && s.selectedModule == Some(s.result.value.testModule)
  }

  /** A settled state is never rendered as an empty layout. */
  lemma SettledRendersScreen(s: AppState)
    requires Settled(s)
    ensures Render(s) != Blank
  {
  }

  /** One callback raised by the mounted screen keeps the state settled. */
  lemma StepKeepsSettled(s: AppState, e: Event)
    requires Settled(s) && Offered(Render(s), e)
    ensures Settled(Step(s, e))
  {
  }

  /** As long as every callback is raised by the screen mounted at that moment,
      the app stays settled, and so always shows the dashboard, a runner or a
      results screen. */
  lemma {:induction false} RunKeepsSettled(s: AppState, events: seq<Event>)
    requires Settled(s) && Drives(s, events)
    ensures Settled(Run(s, events))
    ensures Render(Run(s, events)) != Blank
    decreases events
  {
    if events != [] {
      StepKeepsSettled(s, events[0]);
      RunKeepsSettled(Step(s, events[0]), events[1..]);
    } else {
      SettledRendersScreen(s);
    }
  }

  /** From the initial dashboard, any sequence of callbacks raised by the
      mounted screens leaves a screen on display. */
  lemma NeverBlankFromInitial(events: seq<Event>)
    requires Drives(Initial, events)
    ensures Settled(Run(Initial, events)) && Render(Run(Initial, events)) != Blank
  {
    RunKeepsSettled(Initial, events);
  }

  /** The screen switch cannot go blank: the test view is entered only with a
      module, and the results view only with a result. */
  predicate Shows(s: AppState) {
    (s.view == Test ==> s.selectedModule.Some?) && (s.view == ResultsView ==> s.result.Some?)
  }

  /** Whatever callbacks fire, in any order and from mounted or already
      unmounted screens, a state that shows a screen keeps showing one. */
  lemma {:induction false} RunKeepsShowing(s: AppState, events: seq<Event>)
    requires Shows(s)
    ensures Shows(Run(s, events)) && Render(Run(s, events)) != Blank
    decreases events
  {
    if events != [] {
      RunKeepsShowing(Step(s, events[0]), events[1..]);
    }
  }

  /** A second speaking submission that completes after the user has gone back
      shows its result with no module selected: a state outside `Settled`,
      though still not blank. */
  lemma LateCompletionAfterBack(r1: TestResult, r2: TestResult)
    requires r1.testModule == Speaking
    ensures var s := Run(Initial, [SelectModule(Speaking), Complete(r1), Back, Complete(r2)]);
      !Settled(s) && Render(s) == ResultsScreen(r2)
  {
    var e3 := [Complete(r2)];
    var e2 := [Back, Complete(r2)];
    var e1 := [Complete(r1), Back, Complete(r2)];
    var e0 := [SelectModule(Speaking), Complete(r1), Back, Complete(r2)];
    assert e0[1..] == e1 && e1[1..] == e2 && e2[1..] == e3 && e3[1..] == [];
    var s1 := AfterStartTest(Initial, Speaking);
    assert Run(Initial, e0) == Run(s1, e1);
    assert Run(s1, e1) == Run(AfterTestComplete(s1, r1), e2);
    assert Run(AfterTestComplete(s1, r1), e2) == Run(Initial, e3);
    assert Run(Initial, e3) == Run(AfterTestComplete(Initial, r2), []);
  }

  /** The component itself: the three state hooks as fields. */
  class App {
    var currentView: View
    var selectedModule: Option<TestModule>
    var result: Option<TestResult>

    function State(): AppState
      reads this
    {
      AppState(currentView, selectedModule, result)
    }

    constructor()
      ensures State() == Initial
    {
      currentView := Dashboard;
      selectedModule := None;
      result := None;
    }

    method StartTest(m: TestModule)
      modifies this
      ensures State() == AfterStartTest(old(State()), m)
    {
      selectedModule := Some(m);
      currentView := Test;
    }

    method HandleTestComplete(res: TestResult)
      modifies this
      ensures State() == AfterTestComplete(old(State()), res)
    {
      result := Some(res);
      currentView := ResultsView;
    }

    method GoBack()
      modifies this
      ensures State() == AfterGoBack(old(State()))
    {
      currentView := Dashboard;
      selectedModule := None;
      result := None;
    }
  }
}
