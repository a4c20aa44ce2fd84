/**
 Whether a stage may start, and whether a running one is interrupted, under the schedule and the operator's override.
 */
module StageGate {
  import opened Wrappers
  import opened Domain
  import opened OperatingHours

  datatype ScheduleOverride = Normal | Enabled | Disabled

  datatype GateReason =
    | OverrideEnabled | OverrideDisabled | MechanicalOutsideHours | BySchedule(reason: Reason)

  /** `secondsRemaining` is None when nothing limits the work. */
  datatype Decision = Decision(permitted: bool, mechanical: bool, reason: GateReason, secondsRemaining: Option<int>)

  /** The stages that have a handler and the schedule category each one consumes. */
  function StageOperation(stage: TaskState): Option<OperationType> {
    match stage
    case Analyzing => Some(Analysis)
    case Ready => Some(Implementation)
    case Implementing => Some(Implementation)
    case Testing => Some(QualityGate)
    case Fixing => Some(Fix)
    case Reviewing => Some(Review)
    case PrCreated => Some(Delivery)
    case WaitingCi => Some(CiCheck)
    case ReadyForHumanReview => Some(CiCheck)
    case _ => None
  }

  predicate Mechanical(operation: OperationType) {
    operation in {QualityGate, Delivery, CiCheck}
  }

  function OperationGate(schedule: Schedule, operation: OperationType, override: ScheduleOverride, now: int): Decision {
    var mechanical := Mechanical(operation);
    if override.Enabled? then Decision(true, mechanical, OverrideEnabled, None)
    else
      var hours := HoursFor(schedule, operation, now);
      var mechanicalAllowed := mechanical && schedule.allowMechanicalOutsideHours;
      if override.Disabled? then
        if mechanicalAllowed then Decision(true, mechanical, MechanicalOutsideHours, hours.secondsRemaining)
        else Decision(false, mechanical, OverrideDisabled, hours.secondsRemaining)
      else if hours.canStart then
        if !mechanical && hours.secondsRemaining.Some? && hours.secondsRemaining.value < schedule.startNewStep * 60 then
          Decision(false, mechanical, BySchedule(InsufficientRemainingTime), hours.secondsRemaining)
        else Decision(true, mechanical, BySchedule(hours.reason), hours.secondsRemaining)
      else if mechanicalAllowed then Decision(true, mechanical, MechanicalOutsideHours, hours.secondsRemaining)
      else Decision(false, mechanical, BySchedule(hours.reason), hours.secondsRemaining)
  }

  function StageGateFor(schedule: Schedule, stage: TaskState, override: ScheduleOverride, now: int): Option<Decision> {
    match StageOperation(stage)
    case None => None
    case Some(operation) => Some(OperationGate(schedule, operation, override, now))
  }

  predicate StagePermitted(schedule: Schedule, stage: TaskState, override: ScheduleOverride, now: int) {
    var gate := StageGateFor(schedule, stage, override, now);
    gate.Some? && gate.value.permitted
  }

  predicate ShouldInterrupt(schedule: Schedule, stage: TaskState, override: ScheduleOverride, now: int) {
    && !schedule.finishCurrentStep
    && StageOperation(stage).Some?
    && var operation := StageOperation(stage).value;
    && !override.Enabled?
    && !(Mechanical(operation) && schedule.allowMechanicalOutsideHours)
    && (override.Disabled? || !HoursFor(schedule, operation, now).isOpen)
  }

  /** What a stage must have left to be let in; only AI stages also need the generic step guard. */
  function RequiredMinutes(schedule: Schedule, operation: OperationType): nat {
    if Mechanical(operation) || MinimumMinutesFor(schedule, operation) >= schedule.startNewStep
    then MinimumMinutesFor(schedule, operation) else schedule.startNewStep
  }

  /** The schedule interrupts the stage at some instant less than `minutes` after it started. */
  ghost predicate InterruptedWithin(schedule: Schedule, stage: TaskState, started: int, minutes: nat) {
    exists later: int :: started <= later < started + minutes * 60000 && ShouldInterrupt(schedule, stage, Normal, later)
  }

  /** Stages that no closing window interrupts. */
  predicate NeverInterrupted(schedule: Schedule, operation: OperationType) {
    || schedule.finishCurrentStep || !schedule.enabled
    || (Mechanical(operation) && schedule.allowMechanicalOutsideHours)
  }

  /** Through the whole seconds of its required minutes an admitted stage finds the schedule open. */
  lemma OpenThroughWholeSeconds(schedule: Schedule, stage: TaskState, started: int, later: int)
    requires StageOperation(stage).Some? && !NeverInterrupted(schedule, StageOperation(stage).value)
    requires StagePermitted(schedule, stage, Normal, started)
    requires SecondOf(started) <= SecondOf(later)
    requires SecondOf(later) < SecondOf(started) + RequiredMinutes(schedule, StageOperation(stage).value) * 60
    ensures !ShouldInterrupt(schedule, stage, Normal, later)
  {
    var operation := StageOperation(stage).value;
    var hours := HoursFor(schedule, operation, started);
    assert hours.isOpen && hours.secondsRemaining.value >= RequiredMinutes(schedule, operation) * 60;
    OpenUntilRemaining(schedule, operation, started, SecondOf(later));
    OpenExactlyInWindows(schedule, operation, later);
  }

  /**
   A stage that the schedule lets start is not interrupted by it before its required minutes have passed, if and only if
   no minutes are required, or nothing interrupts such a stage, or it started on a whole second, or the schedule is
   still open in the second in which those minutes end.
   */
  lemma AdmittedStageKeepsItsMinutes(schedule: Schedule, stage: TaskState, started: int)
    requires StageOperation(stage).Some? && StagePermitted(schedule, stage, Normal, started)
    ensures var operation := StageOperation(stage).value;
      var minutes := RequiredMinutes(schedule, operation);
      !InterruptedWithin(schedule, stage, started, minutes)
      <==> (minutes == 0 || NeverInterrupted(schedule, operation) || started % 1000 == 0
            || HoursFor(schedule, operation, (SecondOf(started) + minutes * 60) * 1000).isOpen)
  {
    var operation := StageOperation(stage).value;
    var minutes := RequiredMinutes(schedule, operation);
    var ending := (SecondOf(started) + minutes * 60) * 1000;
    assert SecondOf(ending) == SecondOf(started) + minutes * 60;
    if NeverInterrupted(schedule, operation) {
      assert forall later :: !ShouldInterrupt(schedule, stage, Normal, later);
    } else if minutes == 0 || started % 1000 == 0 || HoursFor(schedule, operation, ending).isOpen {
      forall later: int | started <= later < started + minutes * 60000
        ensures !ShouldInterrupt(schedule, stage, Normal, later)
      {
        if SecondOf(later) < SecondOf(ending) {
          OpenThroughWholeSeconds(schedule, stage, started, later);
        } else {
          OpenExactlyInWindows(schedule, operation, later);
          OpenExactlyInWindows(schedule, operation, ending);
        }
      }
    } else {
      assert started <= ending < started + minutes * 60000;
      assert ShouldInterrupt(schedule, stage, Normal, ending);
    }
  }

  /** A stage admitted half a second into a window of exactly its minutes is interrupted before they have passed. */
  lemma AdmittedStageCanLoseHalfASecond()
    ensures exists schedule: Schedule, started: int ::
      && StagePermitted(schedule, Implementing, Normal, started)
      && InterruptedWithin(schedule, Implementing, started, RequiredMinutes(schedule, Implementation))
  {
    var morning, closed := Day(true, [Window(660, 720)]), Day(false, []);
    var schedule: Schedule := ScheduleConfig(true, [morning, closed, closed, closed, closed, closed, closed],
                                             0, 0, 60, 0, 0, false, false);
    var started, later := 660 * 60 * 1000 + 500, 720 * 60 * 1000;
    assert SecondOf(started) == 39600 && SecondOf(later) == 43200;
    assert DayConfig(schedule, 0) == morning;
    assert ActiveToday(morning.windows[0], 39600);
    assert morning.windows[..0] == [];
    assert TodayRemaining(morning.windows, 39600) == 3600;
    assert !AnyActiveToday(morning.windows, 43200);
    assert StagePermitted(schedule, Implementing, Normal, started);
    assert ShouldInterrupt(schedule, Implementing, Normal, later);
    assert RequiredMinutes(schedule, Implementation) == 60;
    assert InterruptedWithin(schedule, Implementing, started, RequiredMinutes(schedule, Implementation));
  }

  // ------------------------------------------------------------------ what the override decides

  /** Stages without an agent. */
  const MECHANICAL_STAGES: set<TaskState> := {Testing, PrCreated, WaitingCi, ReadyForHumanReview}

  const AGENT_STAGES: set<TaskState> := {Analyzing, Ready, Implementing, Fixing, Reviewing}

  /** The minutes a stage must have left: its own minimum, and for agents at least that of any new step. */
  function MinutesNeeded(schedule: Schedule, stage: TaskState): int {
    var minimum := if stage == Analyzing then schedule.minimumForAnalysis
                   else if stage == Reviewing then schedule.minimumForReview
                   else if stage in AGENT_STAGES then schedule.minimumForImplementation
                   else 0;
    if stage in AGENT_STAGES && minimum < schedule.startNewStep then schedule.startNewStep else minimum
  }

  /** Mechanical stages run at any hour when that is configured. */
  predicate RunsAnyHour(schedule: Schedule, stage: TaskState) {
    stage in MECHANICAL_STAGES && schedule.allowMechanicalOutsideHours
  }

  /** Some window is open now and stays open for the minutes the stage needs. */
  predicate OpenLongEnough(schedule: Schedule, stage: TaskState, operation: OperationType, now: int) {
    var hours := HoursFor(schedule, operation, now);
    && hours.isOpen && hours.secondsRemaining.Some?
    && hours.secondsRemaining.value >= MinutesNeeded(schedule, stage) * 60
  }

  /** What the schedule alone says: open for at least the minimum of the kind of work. */
  lemma HoursTell(schedule: Schedule, operation: OperationType, now: int)
    ensures var hours := HoursFor(schedule, operation, now);
      && (hours.secondsRemaining.None? <==> !schedule.enabled)
      && (!schedule.enabled ==> hours.isOpen && hours.canStart)
      && (schedule.enabled ==>
            (hours.canStart <==>
               hours.isOpen && hours.secondsRemaining.value >= MinimumMinutesFor(schedule, operation) * 60))
  {
    hide AnyActiveToday, AnyCarried, TodayRemaining, CarriedRemaining;
  }

  /**
   An enabled override lets every stage start; a disabled one only mechanical stages, if these run at any hour; without
   an override a stage also starts while there is no schedule, or while it is open for as long as the stage needs.
   */
  lemma OverrideDecides(schedule: Schedule, stage: TaskState, override: ScheduleOverride, now: int)
    requires stage in MECHANICAL_STAGES + AGENT_STAGES
    ensures StageOperation(stage).Some?
    ensures StagePermitted(schedule, stage, override, now)
       <==> match override
            case Enabled => true
            case Disabled => RunsAnyHour(schedule, stage)
            case Normal =>
              || RunsAnyHour(schedule, stage) || !schedule.enabled
              || OpenLongEnough(schedule, stage, StageOperation(stage).value, now)
  {
    hide HoursFor;
    HoursTell(schedule, StageOperation(stage).value, now);
  }

  /** A running stage is stopped under the same rule, unless steps are always finished, and only by a closed window. */
  lemma InterruptionDecides(schedule: Schedule, stage: TaskState, override: ScheduleOverride, now: int)
    requires stage in MECHANICAL_STAGES + AGENT_STAGES
    ensures ShouldInterrupt(schedule, stage, override, now)
       <==> && !schedule.finishCurrentStep && !RunsAnyHour(schedule, stage)
            && match override
               case Enabled => false
               case Disabled => true
               case Normal => !HoursFor(schedule, StageOperation(stage).value, now).isOpen
  {
  }

  /** Other states have no handler: no schedule and no override starts them. */
  lemma NothingElseStarts(schedule: Schedule, stage: TaskState, override: ScheduleOverride, now: int)
    requires stage !in MECHANICAL_STAGES + AGENT_STAGES
    ensures !StagePermitted(schedule, stage, override, now) && !ShouldInterrupt(schedule, stage, override, now)
  {
  }
}
