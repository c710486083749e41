/**
 * The listener that turns the BDD engine's event stream into Karma's reporting calls.
 *
 * Each handler is given twice: as a function from the listener's state to the state
 * after the handler (the specification), and as a method of the class `KarmaListener`
 * that updates the fields in place and is proved to agree with it. A handler that
 * throws is modelled by `Handled.completed == false`; the effects it made before the
 * throw stay in the state. Karma's `info`/`result` calls and the invocations of `hear`'s
 * callback are appended, in order, to one sequence of outputs.
 */
module KarmaListener {
  import opened Wrappers
  import opened Settings

  // ---------------------------------------------------------------------------------------
  // The entities carried by events
  // ---------------------------------------------------------------------------------------

  datatype Feature = Feature(name: string)

  /** `time` is the `_time` property `beforeScenario` stamps on the scenario object. */
  datatype Scenario = Scenario(name: string, time: Option<int>)

  /** `time` is a `_time` property on the step object; no code of the listener sets it. */
  datatype Step = Step(name: string, time: Option<int>)

  /**
   * The failure payload: `text` is its string conversion (what `'' + error` gives) and
   * `stack` its `stack` property, the empty string when absent.
   */
  datatype FailureException = FailureException(text: string, stack: string)

  /** The four predicates of a step result and its failure payload, if any. */
  datatype StepOutcome = StepOutcome(
    successful: bool, pending: bool, undefined: bool, skipped: bool,
    failureException: Option<FailureException>)

  /** An event's name and its payload items; a missing item is `None`. */
  datatype Event = Event(
    name: string,
    feature: Option<Feature>, scenario: Option<Scenario>, step: Option<Step>,
    stepResult: Option<StepOutcome>)

  /** A duration in milliseconds, or the `NaN` JavaScript gives when subtracting `undefined`. */
  datatype Elapsed = Millis(ms: int) | NaN

  /** The object passed to `karma.result`. */
  datatype ResultRecord = ResultRecord(
    description: string, log: seq<string>, suite: seq<string>,
    success: bool, skipped: bool, time: Elapsed)

  /** One call made to the outside: `karma.info`, `karma.result`, or `hear`'s callback. */
  datatype Output = Info(total: int) | Result(record: ResultRecord) | Continue

  datatype Handler = OnBeforeFeature | OnBeforeScenario | OnBeforeStep | OnStepResult

  /** The event names `hear` dispatches, and to which handler. */
  const EventMap: map<string, Handler> := map[
    "BeforeFeature" := OnBeforeFeature,
    "BeforeScenario" := OnBeforeScenario,
    "BeforeStep" := OnBeforeStep,
    "StepResult" := OnStepResult]

  const AllowPending := "allowPending"

  // ---------------------------------------------------------------------------------------
  // The listener's state and the pure decisions over it
  // ---------------------------------------------------------------------------------------

  datatype ListenerState = ListenerState(
    currentStep: Option<Step>,
    currentScenario: Option<Scenario>,
    currentFeature: Option<Feature>,
    scenarioSuccess: bool,
    scenarioSkipped: bool,
    scenarioLog: seq<string>,
    totalSteps: int,
    eventMap: Option<map<string, Handler>>,
    settings: Option<Settings>,
    outputs: seq<Output>)

  /** The state `KarmaListener(karma, settings)` returns. */
  function Initial(settings: Option<Settings>): (st: ListenerState)
    ensures st.currentStep.None? && st.currentScenario.None? && st.currentFeature.None?
    ensures st.scenarioSuccess && !st.scenarioSkipped && st.scenarioLog == [] && st.totalSteps == 0
    ensures st.eventMap.None? && st.settings == settings && st.outputs == []
  {
    ListenerState(None, None, None, true, false, [], 0, None, settings, [])
  }

  /** The state after a handler, and whether it returned rather than threw. */
  datatype Handled = Handled(state: ListenerState, completed: bool)

  /**
   * `shouldAcceptPending`: the settings hold a list for the current feature's and current
   * scenario's names, and that list contains `allowPending`.
   */
  predicate ShouldAcceptPending(settings: Option<Settings>, feature: Option<Feature>, scenario: Option<Scenario>)
    ensures ShouldAcceptPending(settings, feature, scenario) <==>
              settings.Some? && feature.Some? && scenario.Some? &&
              HasEntry(settings.value, feature.value.name, scenario.value.name) &&
              AllowPending in Lookup(settings.value, feature.value.name, scenario.value.name)
  {
    match (settings, feature, scenario)
    case (Some(m), Some(f), Some(s)) =>
      f.name in m && s.name in m[f.name] && AllowPending in m[f.name][s.name]
    case _ => false
  }

  /** `checkStepSuccess`: the scenario has not failed, and the step passed or was pending when pending is accepted. */
  predicate StepSuccessful(scenarioSuccess: bool, outcome: StepOutcome, acceptPending: bool)
    ensures !scenarioSuccess ==> !StepSuccessful(scenarioSuccess, outcome, acceptPending)
    ensures scenarioSuccess && outcome.successful ==> StepSuccessful(scenarioSuccess, outcome, acceptPending)
    ensures scenarioSuccess && !outcome.successful ==>
              (StepSuccessful(scenarioSuccess, outcome, acceptPending) <==> acceptPending && outcome.pending)
  {
    scenarioSuccess && (outcome.successful || (acceptPending && outcome.pending))
  }

  /** The test `checkStepFailure` makes: none of the four predicates holds. */
  predicate Failed(outcome: StepOutcome)
    ensures Failed(outcome) ==> forall flag, accept :: !StepSuccessful(flag, outcome, accept)
    ensures outcome.skipped ==> !Failed(outcome)
  {
    !outcome.successful && !outcome.pending && !outcome.undefined && !outcome.skipped
  }

  /** The line `checkStepFailure` logs: the step's name, a line break, then the stack if it has one, else the error itself. */
  function FailureEntry(stepName: string, error: FailureException): (entry: string)
    ensures |entry| > |stepName| && entry[..|stepName| + 1] == stepName + "\n"
    ensures error.stack != "" ==> entry[|stepName| + 1..] == error.stack
    ensures error.stack == "" ==> entry[|stepName| + 1..] == error.text
  {
    stepName + "\n" + (if error.stack != "" then error.stack else error.text)
  }

  /**
   * `getScenarioTimeElapsed`: 0 for a skipped step; otherwise the clock minus the current
   * step's `_time` (`NaN` when the step carries none). `None` is the throw when a duration
   * is needed and there is no current step.
   */
  function TimeElapsed(skipped: bool, step: Option<Step>, now: int): (r: Option<Elapsed>)
    ensures skipped ==> r == Some(Millis(0))
    ensures !skipped ==> (r.Some? <==> step.Some?)
    ensures !skipped && step.Some? && step.value.time.None? ==> r == Some(NaN)
    ensures !skipped && step.Some? && step.value.time.Some? ==> r == Some(Millis(now - step.value.time.value))
  {
    if skipped then Some(Millis(0))
    else match step
      case None => None
      case Some(s) => Some(if s.time.Some? then Millis(now - s.time.value) else NaN)
  }

  // ---------------------------------------------------------------------------------------
  // The handlers as functions of the state
  // ---------------------------------------------------------------------------------------

  /** `beforeFeature`. */
  function BeforeFeatureSpec(st: ListenerState, event: Event): (r: Handled)
    ensures r.completed && r.state == st.(currentFeature := r.state.currentFeature)
    ensures r.state.currentFeature == event.feature
  {
    Handled(st.(currentFeature := event.feature), true)
  }

  /** `beforeScenario`: the assignment happens, then stamping a missing scenario throws. */
  function BeforeScenarioSpec(st: ListenerState, event: Event, now: int): (r: Handled)
    ensures r.state == st.(currentScenario := r.state.currentScenario)
    ensures r.completed <==> event.scenario.Some?
    ensures r.state.currentScenario.Some? <==> event.scenario.Some?
    ensures r.completed ==> r.state.currentScenario.value.name == event.scenario.value.name &&
                            r.state.currentScenario.value.time == Some(now)
  {
    match event.scenario
    case None => Handled(st.(currentScenario := None), false)
    case Some(s) => Handled(st.(currentScenario := Some(s.(time := Some(now)))), true)
  }

  /** `beforeStep`. */
  function BeforeStepSpec(st: ListenerState, event: Event): (r: Handled)
    ensures r.completed && r.state == st.(currentStep := r.state.currentStep)
    ensures r.state.currentStep == event.step
  {
    Handled(st.(currentStep := event.step), true)
  }

  /**
   * `checkStepFailure`: for a failed outcome, reading the current step's name throws when
   * there is none, then reading the payload's `stack` throws when there is no payload;
   * otherwise the log gains the failure line.
   */
  function CheckStepFailureSpec(st: ListenerState, outcome: StepOutcome): (r: Handled)
    ensures r.state == st.(scenarioLog := r.state.scenarioLog)
    ensures r.completed <==> !Failed(outcome) || (st.currentStep.Some? && outcome.failureException.Some?)
    ensures Failed(outcome) && r.completed ==>
              r.state.scenarioLog == st.scenarioLog + [FailureEntry(st.currentStep.value.name, outcome.failureException.value)]
    ensures !(Failed(outcome) && r.completed) ==> r.state.scenarioLog == st.scenarioLog
  {
    if !Failed(outcome) then Handled(st, true)
    else if st.currentStep.None? || outcome.failureException.None? then Handled(st, false)
    else Handled(st.(scenarioLog := st.scenarioLog + [FailureEntry(st.currentStep.value.name, outcome.failureException.value)]), true)
  }

  /**
   * `stepResult`: count the step and report the count, classify the outcome, log a
   * failure, and report the result of the current scenario. Each dereference of a
   * missing entity throws at the point the handler reaches it.
   */
  function StepResultSpec(st: ListenerState, event: Event, now: int): (r: Handled)
    ensures r.state == st.(totalSteps := st.totalSteps + 1, scenarioLog := r.state.scenarioLog, outputs := r.state.outputs)
    ensures var counted := st.outputs + [Info(st.totalSteps + 1)];
            var o := r.state.outputs;
            (o == counted || (|o| >= 1 && o == counted + [o[|o| - 1]] && o[|o| - 1].Result?)) &&
            (r.completed <==> o != counted)
  {
    var counted := st.(totalSteps := st.totalSteps + 1, outputs := st.outputs + [Info(st.totalSteps + 1)]);
    match event.stepResult
    case None => Handled(counted, false)
    case Some(outcome) =>
      var success := StepSuccessful(counted.scenarioSuccess, outcome, ShouldAcceptPending(counted.settings, counted.currentFeature, counted.currentScenario));
      var checked := CheckStepFailureSpec(counted, outcome);
      var s := checked.state;
      if !checked.completed || s.currentScenario.None? || s.currentFeature.None? then Handled(s, false)
      else match TimeElapsed(outcome.skipped, s.currentStep, now)
        case None => Handled(s, false)
        case Some(time) =>
          var record := ResultRecord(s.currentScenario.value.name, s.scenarioLog, [s.currentFeature.value.name], success, outcome.skipped, time);
          Handled(s.(outputs := s.outputs + [Result(record)]), true)
  }

  /** The handler an event name selects, run on `st`; an unlisted name runs nothing. */
  function Dispatch(st: ListenerState, table: map<string, Handler>, event: Event, now: int): (r: Handled)
    ensures event.name !in table ==> r == Handled(st, false)
    ensures r.state.scenarioSuccess == st.scenarioSuccess && r.state.scenarioSkipped == st.scenarioSkipped
    ensures r.state.settings == st.settings && r.state.eventMap == st.eventMap
  {
    if event.name !in table then Handled(st, false)
    else match table[event.name]
      case OnBeforeFeature => BeforeFeatureSpec(st, event)
      case OnBeforeScenario => BeforeScenarioSpec(st, event, now)
      case OnBeforeStep => BeforeStepSpec(st, event)
      case OnStepResult => StepResultSpec(st, event, now)
  }

  /**
   * `hear`: build the event map on first use, run the handler the name selects (a throw,
   * including the one for an unlisted name, is swallowed), then call the callback.
   */
  function HearSpec(st: ListenerState, event: Event, now: int): (r: ListenerState)
    ensures r.eventMap == Some(if st.eventMap.None? then EventMap else st.eventMap.value)
    ensures |r.outputs| >= 1 && r.outputs[|r.outputs| - 1] == Continue
    ensures r.scenarioSuccess == st.scenarioSuccess && r.scenarioSkipped == st.scenarioSkipped && r.settings == st.settings
  {
    var table := if st.eventMap.None? then EventMap else st.eventMap.value;
    var handled := Dispatch(st.(eventMap := Some(table)), table, event, now);
    handled.state.(outputs := handled.state.outputs + [Continue])
  }

  /** One event, and the clock reading `new Date().getTime()` would give while it is handled. */
  datatype Delivery = Delivery(event: Event, now: int)

  /** The state after hearing the deliveries in order. */
  function HearAll(st: ListenerState, deliveries: seq<Delivery>): ListenerState
    decreases |deliveries|
  {
    if deliveries == [] then st
    else HearAll(HearSpec(st, deliveries[0].event, deliveries[0].now), deliveries[1..])
  }

  // ---------------------------------------------------------------------------------------
  // The listener object
  // ---------------------------------------------------------------------------------------

  /** The object `KarmaListener(karma, settings)` returns; `outputs` is what `karma` and the callbacks receive. */
  class KarmaListener {
    var currentStep: Option<Step>
    var currentScenario: Option<Scenario>
    var currentFeature: Option<Feature>
    var scenarioSuccess: bool
    var scenarioSkipped: bool
    var scenarioLog: seq<string>
    var totalSteps: int
    var eventMap: Option<map<string, Handler>>
    var settings: Option<Settings>
    var outputs: seq<Output>

    function State(): ListenerState
      reads this
    {
      ListenerState(currentStep, currentScenario, currentFeature, scenarioSuccess, scenarioSkipped,
                    scenarioLog, totalSteps, eventMap, settings, outputs)
    }

    constructor (karmaCucumberJsSettings: Option<Settings>)
      ensures State() == Initial(karmaCucumberJsSettings)
    {
      currentStep := None;
      currentScenario := None;
      currentFeature := None;
      scenarioSuccess := true;
      scenarioSkipped := false;
      scenarioLog := [];
      totalSteps := 0;
      eventMap := None;
      settings := karmaCucumberJsSettings;
      outputs := [];
    }

    /** `hear`. */
    method Hear(event: Event, now: int)
      modifies this
      ensures State() == HearSpec(old(State()), event, now)
    {
      if eventMap.None? {
        eventMap := Some(EventMap);
      }
      var table := eventMap.value;
      if event.name in table {
        match table[event.name]
        case OnBeforeFeature => BeforeFeature(event);
        case OnBeforeScenario => var _ := BeforeScenario(event, now);
        case OnBeforeStep => BeforeStep(event);
        case OnStepResult => var _ := StepResult(event, now);
      }
      outputs := outputs + [Continue];
    }

    /** `beforeFeature`. */
    method BeforeFeature(event: Event)
      modifies this
      ensures State() == BeforeFeatureSpec(old(State()), event).state
    {
      currentFeature := event.feature;
    }

    /** `beforeScenario`; `completed` is false when it throws. */
    method BeforeScenario(event: Event, now: int) returns (completed: bool)
      modifies this
      ensures Handled(State(), completed) == BeforeScenarioSpec(old(State()), event, now)
    {
      currentScenario := event.scenario;
      if currentScenario.None? {
        return false;
      }
      currentScenario := Some(currentScenario.value.(time := Some(now)));
      completed := true;
    }

    /** `beforeStep`. */
    method BeforeStep(event: Event)
      modifies this
      ensures State() == BeforeStepSpec(old(State()), event).state
    {
      currentStep := event.step;
    }

    /** `stepResult`; `completed` is false when it throws. */
    method StepResult(event: Event, now: int) returns (completed: bool)
      modifies this
      ensures Handled(State(), completed) == StepResultSpec(old(State()), event, now)
    {
      totalSteps := totalSteps + 1;
      outputs := outputs + [Info(totalSteps)];
      if event.stepResult.None? {
        return false;
      }
      var result := event.stepResult.value;
      var stepSuccessful := StepSuccessful(scenarioSuccess, result, ShouldAcceptPending(settings, currentFeature, currentScenario));
      var stepSkipped := result.skipped;
      completed := CheckStepFailure(result);
      if !completed || currentScenario.None? || currentFeature.None? {
        return false;
      }
      var timeElapsed := TimeElapsed(stepSkipped, currentStep, now);
      if timeElapsed.None? {
        return false;
      }
      outputs := outputs + [Result(ResultRecord(currentScenario.value.name, scenarioLog, [currentFeature.value.name],
                                                stepSuccessful, stepSkipped, timeElapsed.value))];
    }

    /** `checkStepFailure`; `completed` is false when it throws. */
    method CheckStepFailure(outcome: StepOutcome) returns (completed: bool)
      modifies this
      ensures Handled(State(), completed) == CheckStepFailureSpec(old(State()), outcome)
    {
      if Failed(outcome) {
        var error := outcome.failureException;
        if currentStep.None? || error.None? {
          return false;
        }
        scenarioLog := scenarioLog + [FailureEntry(currentStep.value.name, error.value)];
      }
      completed := true;
    }
  }
}
