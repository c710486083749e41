/**
 * What the listener guarantees over single events and over whole event streams:
 * the callback runs once per event, unknown events change nothing, the step counter
 * and its reports count the step results, the log only grows, and each reported result
 * is classified as the settings direct.
 */
module ListenerProperties {
  import opened Wrappers
  import opened Settings
  import opened FeatureLines
  import opened CucumberRunner
  import opened SettingsScoping
  import opened KarmaListener

  /** The event map is unbuilt or is the listener's own table. */
  predicate MapReady(st: ListenerState) {
    st.eventMap.None? || st.eventMap == Some(EventMap)
  }

  /** How many times the callback has been called. */
  function Callbacks(outputs: seq<Output>): nat
    decreases |outputs|
  {
    if outputs == [] then 0
    else Callbacks(outputs[..|outputs| - 1]) + (if outputs[|outputs| - 1] == Continue then 1 else 0)
  }

  /** The totals reported through `karma.info`, in order. */
  function Infos(outputs: seq<Output>): seq<int>
    decreases |outputs|
  {
    if outputs == [] then []
    else Infos(outputs[..|outputs| - 1]) + (if outputs[|outputs| - 1].Info? then [outputs[|outputs| - 1].total] else [])
  }

  /** `[from + 1, from + 2, ..., from + n]`. */
  function CountFrom(from: int, n: nat): (r: seq<int>)
    ensures |r| == n && forall k :: 0 <= k < n ==> r[k] == from + 1 + k
  {
    seq(n, k requires 0 <= k < n => from + 1 + k)
  }

  /** How many of the deliveries are step results. */
  function StepResults(deliveries: seq<Delivery>): nat
    decreases |deliveries|
  {
    if deliveries == [] then 0
    else (if deliveries[0].event.name == "StepResult" then 1 else 0) + StepResults(deliveries[1..])
  }

  // ---------------------------------------------------------------------------------------
  // One event
  // ---------------------------------------------------------------------------------------

  /** Hearing builds the event map, and a built map stays. */
  lemma HearBuildsMap(st: ListenerState, event: Event, now: int)
    requires MapReady(st)
    ensures HearSpec(st, event, now).eventMap == Some(EventMap)
  {
    var table := EventMap;
    var ready := st.(eventMap := Some(table));
    assert Dispatch(ready, table, event, now).state.eventMap == Some(EventMap);
  }

  lemma CallbacksAppend(outputs: seq<Output>, o: Output)
    ensures Callbacks(outputs + [o]) == Callbacks(outputs) + (if o == Continue then 1 else 0)
  {
    assert (outputs + [o])[..|outputs|] == outputs;
  }

  /** Handlers only append reports, and none of them is a callback. */
  lemma DispatchOutputs(st: ListenerState, event: Event, now: int)
    ensures var out := Dispatch(st, EventMap, event, now).state.outputs;
            st.outputs <= out && Callbacks(out) == Callbacks(st.outputs)
  {
    if event.name in EventMap {
      match EventMap[event.name]
      case OnStepResult =>
        StepResultOutputs(st, event, now);
      case OnBeforeFeature =>
        assert Dispatch(st, EventMap, event, now).state.outputs == st.outputs;
      case OnBeforeScenario =>
        assert Dispatch(st, EventMap, event, now).state.outputs == st.outputs;
      case OnBeforeStep =>
        assert Dispatch(st, EventMap, event, now).state.outputs == st.outputs;
    }
  }

  lemma StepResultOutputs(st: ListenerState, event: Event, now: int)
    ensures var out := StepResultSpec(st, event, now).state.outputs;
            st.outputs <= out && Callbacks(out) == Callbacks(st.outputs)
  {
    var out := StepResultSpec(st, event, now).state.outputs;
    var counted := st.outputs + [Info(st.totalSteps + 1)];
    CallbacksAppend(st.outputs, Info(st.totalSteps + 1));
    assert counted[..|st.outputs|] == st.outputs;
    if out != counted {
      CallbacksAppend(counted, out[|out| - 1]);
      assert out[..|st.outputs|] == counted[..|st.outputs|];
    }
  }

  /** `hear` calls its callback exactly once, after everything the handler reported. */
  lemma HearCallsBackOnce(st: ListenerState, event: Event, now: int)
    requires MapReady(st)
    ensures var r := HearSpec(st, event, now).outputs;
            st.outputs <= r[..|r| - 1] && r[|r| - 1] == Continue &&
            Callbacks(r) == Callbacks(st.outputs) + 1
  {
    var ready := st.(eventMap := Some(EventMap));
    DispatchOutputs(ready, event, now);
    var r := HearSpec(st, event, now).outputs;
    assert r[..|r| - 1] == Dispatch(ready, EventMap, event, now).state.outputs;
  }

  /** Over a stream, the callback runs once per delivered event, whatever its name. */
  lemma {:induction false} HearAllCallsBack(st: ListenerState, deliveries: seq<Delivery>)
    requires MapReady(st)
    ensures Callbacks(HearAll(st, deliveries).outputs) == Callbacks(st.outputs) + |deliveries|
    ensures st.outputs <= HearAll(st, deliveries).outputs
    ensures MapReady(HearAll(st, deliveries))
    decreases |deliveries|
  {
    if deliveries != [] {
      var next := HearSpec(st, deliveries[0].event, deliveries[0].now);
      HearCallsBackOnce(st, deliveries[0].event, deliveries[0].now);
      HearBuildsMap(st, deliveries[0].event, deliveries[0].now);
      HearAllCallsBack(next, deliveries[1..]);
      var last := HearAll(st, deliveries).outputs;
      assert last[..|st.outputs|] == next.outputs[..|next.outputs| - 1][..|st.outputs|];
    }
  }

  /** An event name outside the table changes nothing but the map's construction and the callback. */
  lemma UnknownEventChangesNothing(st: ListenerState, event: Event, now: int)
    requires MapReady(st) && event.name !in EventMap
    ensures HearSpec(st, event, now) == st.(eventMap := Some(EventMap), outputs := st.outputs + [Continue])
  {
  }

  /** `beforeFeature` replaces the current feature and nothing else. */
  lemma HearBeforeFeature(st: ListenerState, event: Event, now: int)
    requires MapReady(st) && event.name == "BeforeFeature"
    ensures HearSpec(st, event, now)
         == st.(currentFeature := event.feature, eventMap := Some(EventMap), outputs := st.outputs + [Continue])
  {
  }

  /** `beforeScenario` replaces the current scenario, stamped with the clock, and nothing else. */
  lemma HearBeforeScenario(st: ListenerState, event: Event, now: int)
    requires MapReady(st) && event.name == "BeforeScenario"
    ensures HearSpec(st, event, now)
         == st.(currentScenario := if event.scenario.Some? then Some(event.scenario.value.(time := Some(now))) else None,
                eventMap := Some(EventMap), outputs := st.outputs + [Continue])
  {
  }

  /** `beforeStep` replaces the current step and nothing else. */
  lemma HearBeforeStep(st: ListenerState, event: Event, now: int)
    requires MapReady(st) && event.name == "BeforeStep"
    ensures HearSpec(st, event, now)
         == st.(currentStep := event.step, eventMap := Some(EventMap), outputs := st.outputs + [Continue])
  {
  }

  /**
   * A step result with no current scenario still counts the step and reports the count,
   * then throws on the scenario's name: no result is reported and the callback still runs.
   */
  lemma StepResultBeforeScenario(st: ListenerState, event: Event, now: int)
    requires MapReady(st) && event.name == "StepResult" && st.currentScenario.None?
    ensures !StepResultSpec(st.(eventMap := Some(EventMap)), event, now).completed
    ensures HearSpec(st, event, now).totalSteps == st.totalSteps + 1
    ensures HearSpec(st, event, now).outputs == st.outputs + [Info(st.totalSteps + 1), Continue]
  {
  }

  /** The conditions under which `stepResult` reaches `karma.result`: every entity it reads is present. */
  predicate Reports(st: ListenerState, outcome: StepOutcome) {
    && st.currentScenario.Some? && st.currentFeature.Some?
    && (Failed(outcome) ==> st.currentStep.Some? && outcome.failureException.Some?)
    && (outcome.skipped || st.currentStep.Some?)
  }

  /**
   * A step result is counted, and a result is reported exactly when every entity it
   * reads is present. The record names the current scenario and feature, carries the
   * whole log (with this step's failure line), the success the settings and outcome
   * decide, the outcome's skipped flag and the duration.
   */
  lemma StepResultReported(st: ListenerState, event: Event, now: int)
    requires MapReady(st) && event.name == "StepResult" && event.stepResult.Some?
    ensures var r := HearSpec(st, event, now);
            var outcome := event.stepResult.value;
            r.totalSteps == st.totalSteps + 1 &&
            (Reports(st, outcome) ==>
              r.outputs == st.outputs + [Info(st.totalSteps + 1), Result(ResultRecord(
                st.currentScenario.value.name,
                r.scenarioLog,
                [st.currentFeature.value.name],
                StepSuccessful(st.scenarioSuccess, outcome, ShouldAcceptPending(st.settings, st.currentFeature, st.currentScenario)),
                outcome.skipped,
                TimeElapsed(outcome.skipped, st.currentStep, now).value)), Continue]) &&
            (!Reports(st, outcome) ==> r.outputs == st.outputs + [Info(st.totalSteps + 1), Continue])
  {
    var outcome := event.stepResult.value;
    var ready := st.(eventMap := Some(EventMap));
    DispatchFrame(ready, event, now);
    var counted := ready.(totalSteps := st.totalSteps + 1, outputs := st.outputs + [Info(st.totalSteps + 1)]);
    var checked := CheckStepFailureSpec(counted, outcome);
    assert checked.state.currentStep == st.currentStep;
    assert checked.completed <==> (Failed(outcome) ==> st.currentStep.Some? && outcome.failureException.Some?);
  }

  /**
   * The log gains exactly one line, the failure line of the current step, when the
   * outcome is none of successful, pending, undefined and skipped (and the step and its
   * failure payload are there to read); otherwise it is unchanged.
   */
  lemma StepResultLog(st: ListenerState, event: Event, now: int)
    requires MapReady(st) && event.name == "StepResult" && event.stepResult.Some?
    ensures var outcome := event.stepResult.value;
            var grows := Failed(outcome) && st.currentStep.Some? && outcome.failureException.Some?;
            var log := HearSpec(st, event, now).scenarioLog;
            (grows ==> log == st.scenarioLog + [FailureEntry(st.currentStep.value.name, outcome.failureException.value)]) &&
            (!grows ==> log == st.scenarioLog)
  {
  }

  lemma InfosAppend(outputs: seq<Output>, o: Output)
    ensures Infos(outputs + [o]) == Infos(outputs) + (if o.Info? then [o.total] else [])
  {
    assert (outputs + [o])[..|outputs|] == outputs;
  }

  /** The one name the table sends to `stepResult`. */
  lemma StepResultName(name: string)
    ensures (name in EventMap && EventMap[name] == OnStepResult) <==> name == "StepResult"
  {
  }

  /**
   * No handler touches the flags, the settings or the map; the handlers other than
   * `stepResult` leave the counter, the log and the outputs alone.
   */
  lemma DispatchFrame(st: ListenerState, event: Event, now: int)
    ensures var d := Dispatch(st, EventMap, event, now).state;
            d.scenarioSuccess == st.scenarioSuccess && d.scenarioSkipped == st.scenarioSkipped &&
            d.settings == st.settings && d.eventMap == st.eventMap
    ensures event.name != "StepResult" ==>
              var d := Dispatch(st, EventMap, event, now).state;
              d.totalSteps == st.totalSteps && d.scenarioLog == st.scenarioLog && d.outputs == st.outputs &&
              (d.currentStep == st.currentStep || d.currentStep == event.step)
    ensures event.name == "StepResult" ==> Dispatch(st, EventMap, event, now) == StepResultSpec(st, event, now)
  {
    StepResultName(event.name);
    if event.name in EventMap {
      match EventMap[event.name]
      case OnStepResult =>
      case OnBeforeFeature =>
      case OnBeforeScenario =>
      case OnBeforeStep =>
    }
  }

  /** What the handler of one event adds to the reported totals. */
  lemma DispatchInfos(st: ListenerState, event: Event, now: int)
    ensures var d := Dispatch(st, EventMap, event, now).state;
            d.totalSteps == st.totalSteps + (if event.name == "StepResult" then 1 else 0) &&
            Infos(d.outputs) == Infos(st.outputs) + (if event.name == "StepResult" then [st.totalSteps + 1] else [])
  {
    DispatchFrame(st, event, now);
    if event.name == "StepResult" {
      var d := StepResultSpec(st, event, now).state;
      var counted := st.outputs + [Info(st.totalSteps + 1)];
        InfosAppend(st.outputs, Info(st.totalSteps + 1));
      if d.outputs != counted {
        InfosAppend(counted, d.outputs[|d.outputs| - 1]);
      }
    }
  }

  // ---------------------------------------------------------------------------------------
  // Event streams
  // ---------------------------------------------------------------------------------------

  /** From `a` to `b` the counter grew by `n`, and the totals `a + 1`, ..., `a + n` were reported. */
  predicate CountedOn(a: ListenerState, b: ListenerState, n: nat) {
    b.totalSteps == a.totalSteps + n && Infos(b.outputs) == Infos(a.outputs) + CountFrom(a.totalSteps, n)
  }

  lemma CountedOnCompose(a: ListenerState, b: ListenerState, c: ListenerState, m: nat, n: nat)
    requires CountedOn(a, b, m) && CountedOn(b, c, n)
    ensures CountedOn(a, c, m + n)
  {
    assert CountFrom(a.totalSteps, m) + CountFrom(b.totalSteps, n) == CountFrom(a.totalSteps, m + n);
  }

  /** One event adds one to the counter, and reports the new count, exactly when it is a step result. */
  lemma HearCountedOn(st: ListenerState, event: Event, now: int)
    requires MapReady(st)
    ensures CountedOn(st, HearSpec(st, event, now), if event.name == "StepResult" then 1 else 0)
  {
    var ready := st.(eventMap := Some(EventMap));
    var d := Dispatch(ready, EventMap, event, now).state;
    DispatchInfos(ready, event, now);
    InfosAppend(d.outputs, Continue);
    var h := HearSpec(st, event, now);
    assert h.outputs == d.outputs + [Continue] && h.totalSteps == d.totalSteps;
    assert Infos(h.outputs) == Infos(d.outputs);
    if event.name == "StepResult" {
      assert CountFrom(st.totalSteps, 1) == [st.totalSteps + 1];
    } else {
      assert Infos(st.outputs) + CountFrom(st.totalSteps, 0) == Infos(st.outputs);
    }
  }

  /** Each step result adds one to the counter and reports it: the totals run on from the counter, one per step result. */
  lemma {:induction false} HearAllCounts(st: ListenerState, deliveries: seq<Delivery>)
    requires MapReady(st)
    ensures CountedOn(st, HearAll(st, deliveries), StepResults(deliveries))
    decreases |deliveries|
  {
    if deliveries == [] {
      assert Infos(st.outputs) + CountFrom(st.totalSteps, 0) == Infos(st.outputs);
    } else {
      var d := deliveries[0];
      var next := HearSpec(st, d.event, d.now);
      HearCountedOn(st, d.event, d.now);
      HearBuildsMap(st, d.event, d.now);
      HearAllCounts(next, deliveries[1..]);
      CountedOnCompose(st, next, HearAll(next, deliveries[1..]), if d.event.name == "StepResult" then 1 else 0, StepResults(deliveries[1..]));
    }
  }

  /** From a fresh listener, after n step results the counter is n and the reported totals are 1, 2, ..., n. */
  lemma TotalsFromStart(settings: Option<Settings>, deliveries: seq<Delivery>)
    ensures HearAll(Initial(settings), deliveries).totalSteps == StepResults(deliveries)
    ensures Infos(HearAll(Initial(settings), deliveries).outputs) == CountFrom(0, StepResults(deliveries))
  {
    HearAllCounts(Initial(settings), deliveries);
  }

  /** `scenarioSuccess`, `scenarioSkipped` and the settings are never reassigned. */
  lemma {:induction false} FlagsNeverChange(st: ListenerState, deliveries: seq<Delivery>)
    requires MapReady(st)
    ensures HearAll(st, deliveries).scenarioSuccess == st.scenarioSuccess
    ensures HearAll(st, deliveries).scenarioSkipped == st.scenarioSkipped
    ensures HearAll(st, deliveries).settings == st.settings
    decreases |deliveries|
  {
    if deliveries != [] {
      var d := deliveries[0];
      DispatchFrame(st.(eventMap := Some(EventMap)), d.event, d.now);
      HearBuildsMap(st, d.event, d.now);
      FlagsNeverChange(HearSpec(st, d.event, d.now), deliveries[1..]);
    }
  }

  /** The log never shrinks: what was logged stays, in place. */
  lemma {:induction false} LogNeverShrinks(st: ListenerState, deliveries: seq<Delivery>)
    ensures st.scenarioLog <= HearAll(st, deliveries).scenarioLog
    decreases |deliveries|
  {
    if deliveries != [] {
      var next := HearSpec(st, deliveries[0].event, deliveries[0].now);
      assert st.scenarioLog <= next.scenarioLog;
      LogNeverShrinks(next, deliveries[1..]);
      assert HearAll(st, deliveries).scenarioLog[..|next.scenarioLog|][..|st.scenarioLog|]
          == HearAll(st, deliveries).scenarioLog[..|st.scenarioLog|];
    }
  }

  /** Every result reported so far took 0 ms when skipped and `NaN` otherwise. */
  predicate TimesAsWritten(outputs: seq<Output>) {
    forall k :: 0 <= k < |outputs| && outputs[k].Result? ==>
      outputs[k].record.time == if outputs[k].record.skipped then Millis(0) else NaN
  }

  predicate Unstamped(step: Option<Step>) {
    step.None? || step.value.time.None?
  }

  /**
   * Only scenarios are stamped, while the duration is measured from the current step's
   * stamp; so as long as the engine's steps carry none, every result that is not
   * skipped reports `NaN`, and every skipped one 0.
   */
  lemma {:induction false} ResultTimes(st: ListenerState, deliveries: seq<Delivery>)
    requires MapReady(st) && Unstamped(st.currentStep) && TimesAsWritten(st.outputs)
    requires forall k :: 0 <= k < |deliveries| ==> Unstamped(deliveries[k].event.step)
    ensures TimesAsWritten(HearAll(st, deliveries).outputs)
    decreases |deliveries|
  {
    if deliveries != [] {
      var d := deliveries[0];
      var next := HearSpec(st, d.event, d.now);
      HearOneTime(st, d.event, d.now);
      HearBuildsMap(st, d.event, d.now);
      assert forall k :: 0 <= k < |deliveries[1..]| ==> deliveries[1..][k] == deliveries[k + 1];
      ResultTimes(next, deliveries[1..]);
    }
  }

  lemma HearOneTime(st: ListenerState, event: Event, now: int)
    requires MapReady(st) && Unstamped(st.currentStep) && TimesAsWritten(st.outputs) && Unstamped(event.step)
    ensures Unstamped(HearSpec(st, event, now).currentStep)
    ensures TimesAsWritten(HearSpec(st, event, now).outputs)
  {
    var ready := st.(eventMap := Some(EventMap));
    var d := Dispatch(ready, EventMap, event, now).state;
    DispatchFrame(ready, event, now);
    if event.name == "StepResult" {
      StepResultTimes(ready, event, now);
    }
    var r := HearSpec(st, event, now);
    assert r.outputs == d.outputs + [Continue];
    assert forall k :: 0 <= k < |d.outputs| ==> r.outputs[k] == d.outputs[k];
  }

  /** `stepResult` leaves the step alone and reports 0 ms for a skipped step, `NaN` for an unstamped one. */
  lemma StepResultTimes(st: ListenerState, event: Event, now: int)
    requires Unstamped(st.currentStep) && TimesAsWritten(st.outputs)
    ensures StepResultSpec(st, event, now).state.currentStep == st.currentStep
    ensures TimesAsWritten(StepResultSpec(st, event, now).state.outputs)
  {
    var o := StepResultSpec(st, event, now).state.outputs;
    var counted := st.outputs + [Info(st.totalSteps + 1)];
    assert forall k :: 0 <= k < |st.outputs| ==> counted[k] == st.outputs[k];
    if o != counted {
      var x := o[|o| - 1];
      assert x.record.time == TimeElapsed(event.stepResult.value.skipped, st.currentStep, now).value;
      assert forall k :: 0 <= k < |counted| ==> o[k] == counted[k];
    }
  }

  // ---------------------------------------------------------------------------------------
  // The classification table
  // ---------------------------------------------------------------------------------------

  const Passed := StepOutcome(true, false, false, false, None)
  const PendingStep := StepOutcome(false, true, false, false, None)
  const SkippedStep := StepOutcome(false, false, false, true, None)

  function FailedStep(error: FailureException): StepOutcome {
    StepOutcome(false, false, false, false, Some(error))
  }

  function StepResultEvent(outcome: StepOutcome): Event {
    Event("StepResult", None, None, None, Some(outcome))
  }

  /** A listener inside a scenario of a feature, at a step, with nothing failed yet. */
  predicate InStep(st: ListenerState) {
    MapReady(st) && st.currentScenario.Some? && st.currentFeature.Some? && st.currentStep.Some? && st.scenarioSuccess
  }

  /** The record the step result's event reports; `InStep` guarantees there is one. */
  function Reported(st: ListenerState, outcome: StepOutcome, now: int): ResultRecord
    requires MapReady(st)
  {
    var out := HearSpec(st, StepResultEvent(outcome), now).outputs;
    if |out| >= 2 && out[|out| - 2].Result? then out[|out| - 2].record else ResultRecord("", [], [], false, false, NaN)
  }

  /**
   * A passed step succeeds; a pending step succeeds exactly when the settings accept
   * pending steps for the scenario; a skipped step fails, is marked skipped and takes
   * 0 ms; a failed step fails and logs one line, headed by the step's name.
   */
  lemma ClassificationTable(st: ListenerState, error: FailureException, now: int)
    requires InStep(st)
    ensures Reported(st, Passed, now).success && !Reported(st, Passed, now).skipped
    ensures Reported(st, PendingStep, now).success == ShouldAcceptPending(st.settings, st.currentFeature, st.currentScenario)
    ensures !Reported(st, SkippedStep, now).success && Reported(st, SkippedStep, now).skipped
    ensures Reported(st, SkippedStep, now).time == Millis(0)
    ensures var r := Reported(st, FailedStep(error), now);
            !r.success && !r.skipped && r.log == st.scenarioLog + [FailureEntry(st.currentStep.value.name, error)]
  {
    ReportedRow(st, Passed, now);
    ReportedRow(st, PendingStep, now);
    ReportedRow(st, SkippedStep, now);
    ReportedRow(st, FailedStep(error), now);
    StepResultLog(st, StepResultEvent(FailedStep(error)), now);
  }

  /** One row of the table: the record's success, skipped flag and duration for one outcome. */
  lemma ReportedRow(st: ListenerState, outcome: StepOutcome, now: int)
    requires InStep(st) && (Failed(outcome) ==> outcome.failureException.Some?)
    ensures var r := Reported(st, outcome, now);
            r.success == StepSuccessful(true, outcome, ShouldAcceptPending(st.settings, st.currentFeature, st.currentScenario)) &&
            r.skipped == outcome.skipped &&
            r.time == TimeElapsed(outcome.skipped, st.currentStep, now).value &&
            r.log == HearSpec(st, StepResultEvent(outcome), now).scenarioLog
  {
    StepResultReported(st, StepResultEvent(outcome), now);
  }

  // ---------------------------------------------------------------------------------------
  // From a directive in a feature file to an accepted pending step
  // ---------------------------------------------------------------------------------------

  /** A stream for one feature, one scenario, one step and its pending result. */
  function PendingRun(feature: string, scenario: string, step: string): seq<Delivery> {
    [Delivery(Event("BeforeFeature", Some(Feature(feature)), None, None, None), 0),
     Delivery(Event("BeforeScenario", None, Some(Scenario(scenario, None)), None, None), 0),
     Delivery(Event("BeforeStep", None, None, Some(Step(step, None)), None), 0),
     Delivery(StepResultEvent(PendingStep), 0)]
  }

  lemma PendingRunOutputs(settings: Option<Settings>, feature: string, scenario: string, step: string)
    ensures HearAll(Initial(settings), PendingRun(feature, scenario, step)).outputs
         == [Continue, Continue, Continue, Info(1),
             Result(ResultRecord(scenario, [], [feature],
                    ShouldAcceptPending(settings, Some(Feature(feature)), Some(Scenario(scenario, Some(0)))), false, NaN)),
             Continue]
  {
    var ds := PendingRun(feature, scenario, step);
    PendingRunPrefix(settings, feature, scenario, step);
    PendingStepReported(PendingRunSetUp(settings, feature, scenario, step), 0);
    HearAllFour(Initial(settings), ds[0], ds[1], ds[2], ds[3]);
  }

  /** The state after the first three events of `PendingRun`. */
  function PendingRunSetUp(settings: Option<Settings>, feature: string, scenario: string, step: string): ListenerState {
    Initial(settings).(currentFeature := Some(Feature(feature)), currentScenario := Some(Scenario(scenario, Some(0))),
                       currentStep := Some(Step(step, None)), eventMap := Some(EventMap),
                       outputs := [Continue, Continue, Continue])
  }

  lemma PendingRunPrefix(settings: Option<Settings>, feature: string, scenario: string, step: string)
    ensures var ds := PendingRun(feature, scenario, step);
            HearSpec(HearSpec(HearSpec(Initial(settings), ds[0].event, 0), ds[1].event, 0), ds[2].event, 0)
            == PendingRunSetUp(settings, feature, scenario, step)
  {
    var e0 := Event("BeforeFeature", Some(Feature(feature)), None, None, None);
    var e1 := Event("BeforeScenario", None, Some(Scenario(scenario, None)), None, None);
    var e2 := Event("BeforeStep", None, None, Some(Step(step, None)), None);
    var s0 := Initial(settings);
    var s1 := s0.(currentFeature := Some(Feature(feature)), eventMap := Some(EventMap), outputs := [Continue]);
    var s2 := s1.(currentScenario := Some(Scenario(scenario, Some(0))), outputs := [Continue, Continue]);
    HearBeforeFeature(s0, e0, 0);
    HearBeforeScenario(s1, e1, 0);
    HearBeforeStep(s2, e2, 0);
  }

  /** The pending step's result, heard inside a scenario with an empty log and a zero counter. */
  lemma PendingStepReported(st: ListenerState, now: int)
    requires MapReady(st) && st.currentScenario.Some? && st.currentFeature.Some? && st.currentStep.Some?
    requires st.currentStep.value.time.None? && st.scenarioLog == [] && st.totalSteps == 0 && st.scenarioSuccess
    ensures HearSpec(st, StepResultEvent(PendingStep), now).outputs
         == st.outputs + [Info(1),
                          Result(ResultRecord(st.currentScenario.value.name, [], [st.currentFeature.value.name],
                                 ShouldAcceptPending(st.settings, st.currentFeature, st.currentScenario), false, NaN)),
                          Continue]
  {
    StepResultReported(st, StepResultEvent(PendingStep), now);
    StepResultLog(st, StepResultEvent(PendingStep), now);
  }

  lemma HearAllFour(st: ListenerState, d0: Delivery, d1: Delivery, d2: Delivery, d3: Delivery)
    ensures HearAll(st, [d0, d1, d2, d3])
         == HearSpec(HearSpec(HearSpec(HearSpec(st, d0.event, d0.now), d1.event, d1.now), d2.event, d2.now), d3.event, d3.now)
  {
    var t1 := HearSpec(st, d0.event, d0.now);
    var t2 := HearSpec(t1, d1.event, d1.now);
    var t3 := HearSpec(t2, d2.event, d2.now);
    assert [d0, d1, d2, d3][1..] == [d1, d2, d3];
    assert [d1, d2, d3][1..] == [d2, d3];
    assert [d2, d3][1..] == [d3];
    assert [d3][1..] == [];
    assert HearAll(t3, [d3]) == HearAll(HearSpec(t3, d3.event, d3.now), []);
    assert HearAll(t2, [d2, d3]) == HearAll(t3, [d3]);
    assert HearAll(t1, [d1, d2, d3]) == HearAll(t2, [d2, d3]);
    assert HearAll(st, [d0, d1, d2, d3]) == HearAll(t1, [d1, d2, d3]);
  }

  /**
   * A file whose first line is the directive `#karma-cucumberjs allowPending`, followed by
   * a feature header and a scenario header: a listener given the settings parsed from it
   * reports that scenario's pending step as a success. Without settings the same step fails.
   */
  lemma AllowPendingDirective(feature: string, scenario: string, step: string)
    requires IsPlainName(feature) && IsPlainName(scenario) && feature != [] && scenario != []
    ensures var settings := ParseSettings(JsText.Join(SingleScenarioLines(AllowPending, feature, scenario), '\n'), None);
            |HearAll(Initial(Some(settings)), PendingRun(feature, scenario, step)).outputs| == 6 &&
            HearAll(Initial(Some(settings)), PendingRun(feature, scenario, step)).outputs[4]
            == Result(ResultRecord(scenario, [], [feature], true, false, NaN))
    ensures |HearAll(Initial(None), PendingRun(feature, scenario, step)).outputs| == 6 &&
            HearAll(Initial(None), PendingRun(feature, scenario, step)).outputs[4]
            == Result(ResultRecord(scenario, [], [feature], false, false, NaN))
  {
    AllowPendingIsPlain();
    SingleScenarioFile(AllowPending, feature, scenario);
    var settings := map[feature := map[scenario := [AllowPending]]];
    assert HasEntry(settings, feature, scenario) && AllowPending in Lookup(settings, feature, scenario);
    PendingRunVerdict(Some(settings), feature, scenario, step);
    PendingRunVerdict(None, feature, scenario, step);
  }

  lemma AllowPendingIsPlain()
    ensures IsPlainName(AllowPending) && ' ' !in AllowPending && AllowPending != []
  {
    assert JsText.IsTrimmed(AllowPending) && JsText.NoLineTerminator(AllowPending);
  }

  /** The result `PendingRun` reports, as the fifth output. */
  lemma PendingRunVerdict(settings: Option<Settings>, feature: string, scenario: string, step: string)
    ensures var out := HearAll(Initial(settings), PendingRun(feature, scenario, step)).outputs;
            |out| == 6 &&
            out[4] == Result(ResultRecord(scenario, [], [feature],
                        settings.Some? && HasEntry(settings.value, feature, scenario) &&
                        AllowPending in Lookup(settings.value, feature, scenario), false, NaN))
  {
    PendingRunOutputs(settings, feature, scenario, step);
  }
}
