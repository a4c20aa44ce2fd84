/**
 What every accepted advance of a supervised task leaves behind: the checkpoint that the next stage relies on, whatever
 other people commit and wherever earlier handlers crashed.
 */
module RunRecords {
  import opened Wrappers
  import opened Domain
  import opened Tasks
  import opened TaskActions
  import opened ExecutionStore
  import opened StagePlans
  import opened ExecutionSafety
  import opened ExecutionDrift
  import opened ExecutionPlansSafe
  import opened ExecutionRuns
  import Commits
  import Observation
  import ObservationLaws
  import StageLaws
  import TaskRuns

  const WORKING_STATES: set<TaskState> := EXECUTION_STATES + DELIVERY_STATES

  // ------------------------------------------------------------------ only a finished handler advances a task

  /** Targets that no operator, recovery, boundary or pause leads to. */
  predicate IsAdvance(from: TaskState, to: TaskState) {
    && from in WORKING_STATES && to != from
    && to !in {Queued, Blocked, Cancelled, PausedSchedule, PausedLimit}
  }

  lemma TableAdvancesNothing(setting: Setting, exec: Exec, action: Action)
    requires setting.id in exec.db.tasks && TableEnabled(setting, exec, action)
    requires exec.db.tasks[setting.id].state in WORKING_STATES
    ensures var after := TaskActions.Perform(setting.config, exec.db, action);
      setting.id in after.tasks && !IsAdvance(exec.db.tasks[setting.id].state, after.tasks[setting.id].state)
  {
    hide Selects, ClaimInputNow, GrantedLease;
  }

  lemma OutcomeAdvances(setting: Setting, db: Db, worker: Worker, state: TaskState, outcome: StageOutcome)
    requires setting.id in db.tasks
    requires var after := OutcomeApplied(setting, db, worker, state, outcome);
      setting.id in after.tasks && IsAdvance(db.tasks[setting.id].state, after.tasks[setting.id].state)
    ensures var after := OutcomeApplied(setting, db, worker, state, outcome);
      && outcome.Advance? && outcome.to == after.tasks[setting.id].state
      && db.tasks[setting.id].LeasedTo(worker)
  {
  }

  /** The step is the end of a handler of the task's state, and its outcome is this advance. */
  predicate AdvancedBy(setting: Setting, exec: Exec, step: Step, to: TaskState) {
    && step == Finish && exec.running.Some? && setting.id in exec.db.tasks
    && exec.running.value.task.state == exec.db.tasks[setting.id].state
    && exec.running.value.done == |exec.running.value.plan.effects|
    && exec.running.value.plan.outcome.Advance? && exec.running.value.plan.outcome.to == to
  }

  lemma AdvanceIsAFinish(setting: Setting, exec: Exec, step: Step)
    requires RunningRow(setting, exec) && setting.id in exec.db.tasks
    requires var after := Next(setting, exec, step);
      && setting.id in after.db.tasks
      && IsAdvance(exec.db.tasks[setting.id].state, after.db.tasks[setting.id].state)
    ensures AdvancedBy(setting, exec, step, Next(setting, exec, step).db.tasks[setting.id].state)
  {
    hide OutcomeApplied, TaskActions.Perform;
    if step.Table? && Enabled(setting, exec, step) {
      TableAdvancesNothing(setting, exec, step.action);
    } else if step.Finish? && Enabled(setting, exec, step) {
      var running := exec.running.value;
      OutcomeAdvances(setting, exec.db, running.worker, running.task.state, running.plan.outcome);
    }
  }

  // ------------------------------------------------------------------ what an advance leaves

  /** A fix that is marked as applied is on record. */
  predicate AppliedIsOnRecord(store: Store) {
    store.checkpoints.fixApplied.Some? ==> FixRecorded(store.checkpoints.fixApplied.value) in store.events
  }

  predicate RecordsKept(exec: Exec) {
    AppliedIsOnRecord(exec.store) && (exec.running.Some? ==> AppliedIsOnRecord(exec.running.value.base))
  }

  lemma AppliedStaysOnRecord(store: Store, effect: Effect)
    requires AppliedIsOnRecord(store)
    ensures AppliedIsOnRecord(Apply(store, effect))
  {
    var after := Apply(store, effect);
    assert store.events <= after.events;
    assert effect.SaveFixApplied? ==> after.events[|store.events|] == FixRecorded(effect.id);
  }

  lemma RecordsKeptStep(setting: Setting, exec: Exec, step: Step)
    requires RecordsKept(exec)
    ensures RecordsKept(Next(setting, exec, step))
  {
    hide Apply, OutcomeApplied, TaskActions.Perform, AppliedIsOnRecord, StagePlan;
    if step.NextEffect? && Enabled(setting, exec, step) {
      AppliedStaysOnRecord(exec.store, exec.running.value.plan.effects[exec.running.value.done]);
    } else if step.Foreign? {
      AppliedStaysOnRecord(exec.store, ForeignMove(step.repository));
    }
  }

  /** A request for these heads that has not been applied. */
  predicate AsksForAFix(checkpoints: Checkpoints, id: Commits.RequestId, heads: Heads) {
    checkpoints.fixRequest == Some(FixRequest(id, heads)) && checkpoints.fixApplied != Some(id)
  }

  /**
   What the advance of a run promises the next stage: an analysis of the contract it was given, a setup or an
   implementation for the units, gates passed, a fix requested or applied, or an approval, each for the heads it read.
   */
  predicate Promises(limits: Limits, task: Task, base: Store, input: StageInput, to: TaskState,
                     checkpoints: Checkpoints)
    requires base.Prepared(limits.units)
  {
    var heads := HeadsOf(base, limits.units);
    match task.state
    case Analyzing => to == Ready && input.AnalysisInput? && checkpoints.analysis == Some(input.digest)
    case Ready =>
      to == Implementing && input.ReadyInput? && (input.needsSetup ==> checkpoints.setup == Some(heads))
    case Implementing =>
      || (to == Testing && checkpoints.implementation.Some?)
      || to == Failed
      || (to == Ready && checkpoints.rejected == Some(task.implementationAttempts + 1)
          && task.implementationAttempts + 1 < limits.maxImplementationAttempts)
    case Testing =>
      || (to == Reviewing && checkpoints.qualityPassed == Some(heads))
      || (to == Fixing && task.qualityFixAttempts < limits.maxQualityFixAttempts
          && AsksForAFix(checkpoints, Commits.QualityRequest(NextAttempt(base.AttemptsOf(Testing))), heads))
      || (to == Failed && task.qualityFixAttempts >= limits.maxQualityFixAttempts)
    case Fixing =>
      && to == Testing && checkpoints.fixRequest.Some?
      && checkpoints.fixApplied == Some(checkpoints.fixRequest.value.id)
    case Reviewing =>
      || (to == PrCreated && checkpoints.reviewApproved == Some(heads))
      || (to == Fixing && task.reviewAttempts < limits.maxReviewCycles
          && AsksForAFix(checkpoints, Commits.ReviewRequest(NextAttempt(base.AttemptsOf(Reviewing))), heads))
      || (to == Failed && task.reviewAttempts >= limits.maxReviewCycles)
    case PrCreated =>
      to == WaitingCi && checkpoints.reviewApproved == Some(heads) && checkpoints.qualityPassed == Some(heads)
    case WaitingCi => to == ReadyForHumanReview
    case ReadyForHumanReview => to in {WaitingCi, Completed}
    case _ => false
  }

  /** The outcome of a run, if it advances, promises what the run leaves. */
  predicate Keeps(limits: Limits, task: Task, base: Store, input: StageInput)
    requires base.Prepared(limits.units)
  {
    var outcome := StagePlan(limits, task, base, input).outcome;
    outcome.Advance? && outcome.to != Blocked ==>
      Promises(limits, task, base, input, outcome.to, StageLaws.Left(limits, task, base, input).checkpoints)
  }

  lemma {:induction false} FirstStop(input: StageInput, units: seq<Commits.Repository>) returns (k: nat)
    requires input.TestInput? && !StageLaws.GatesCompleted(input, units)
    ensures k < |units| && Report(input, k) in {GateAborted, GateInfrastructure}
    ensures StageLaws.GatesCompleted(input, units[..k])
  {
    var shorter := units[..|units| - 1];
    if StageLaws.GatesCompleted(input, shorter) {
      k := |units| - 1;
      assert forall i :: 0 <= i < |shorter| ==> Report(input, i) in {GatePassed, GateFailed};
      assert !Report(input, k).GatePassed? && !Report(input, k).GateFailed?;
      assert Report(input, k).GateAborted? || Report(input, k).GateInfrastructure?;
    } else {
      k := FirstStop(input, shorter);
      assert shorter[..k] == units[..k];
    }
  }

  lemma TestingKeeps(limits: Limits, task: Task, base: Store, input: StageInput)
    requires StoreOk(limits, base) && base.Prepared(limits.units) && AppliedIsOnRecord(base)
    requires task.state == Testing && input.TestInput?
    ensures Keeps(limits, task, base, input)
  {
    hide StagePlan, StoreOk, StageLaws.Left, NextAttempt, ApplyAll;
    if input.loadFails || base.checkpoints.qualityPassed == Some(HeadsOf(base, limits.units)) {
      StageLaws.PassedCommitsAreNotTestedAgain(limits, task, base, input);
      NothingLeft(limits, task, base, input);
    } else if StageLaws.GatesCompleted(input, limits.units) {
      StageLaws.FailedGatesAskForAFix(limits, task, base, input);
      NewRequest(limits, base, Commits.QualityRequest(NextAttempt(base.AttemptsOf(Testing))));
    } else {
      var k := FirstStop(input, limits.units);
      StageLaws.GatesThatCannotRun(limits, task, base, input, k);
    }
  }

  lemma NothingLeft(limits: Limits, task: Task, base: Store, input: StageInput)
    requires base.Prepared(limits.units) && StagePlan(limits, task, base, input).effects == []
    ensures StageLaws.Left(limits, task, base, input).checkpoints == base.checkpoints
  {
  }

  /** A request under the next attempt number was never applied. */
  lemma NewRequest(limits: Limits, base: Store, id: Commits.RequestId)
    requires StoreOk(limits, base) && AppliedIsOnRecord(base)
    requires id.attempt == NextAttempt(base.AttemptsOf(RequestStage(id)))
    ensures base.checkpoints.fixApplied != Some(id)
  {
    RequestIsNew(base, id);
  }

  lemma ReviewKeeps(limits: Limits, task: Task, base: Store, input: StageInput)
    requires StoreOk(limits, base) && base.Prepared(limits.units) && AppliedIsOnRecord(base)
    requires task.state == Reviewing && input.ReviewInput?
    ensures Keeps(limits, task, base, input)
  {
    hide StagePlan, StoreOk, StageLaws.Left, NextAttempt, ApplyAll;
    if !StageLaws.ReviewDue(limits, base, input) {
      StageLaws.ReviewNotDue(limits, task, base, input);
      NothingLeft(limits, task, base, input);
    } else if input.wrote || input.moved || !input.result.AgentDone? || input.problems {
      StageLaws.SpoiltReviewSavesNothing(limits, task, base, input);
    } else {
      StageLaws.VerdictDecides(limits, task, base, input);
      NewRequest(limits, base, Commits.ReviewRequest(NextAttempt(base.AttemptsOf(Reviewing))));
    }
  }

  lemma WorkKeeps(limits: Limits, task: Task, base: Store, input: StageInput)
    requires base.Prepared(limits.units) && task.state in {Implementing, Fixing} && input.WorkInput?
    ensures Keeps(limits, task, base, input)
  {
    hide StagePlan, StageLaws.Left, NextAttempt, ApplyAll, StageLaws.Closing;
    if task.state == Fixing {
      if StageLaws.FixDue(limits, base, input) {
        StageLaws.FixDecides(limits, task, base, input);
        ClosingKeeps(StageLaws.RecordOf(base), Fixing);
      } else {
        StageLaws.FixNotDue(limits, task, base, input);
        NothingLeft(limits, task, base, input);
      }
    } else if StageLaws.ImplementationDue(limits, task, base, input) {
      StageLaws.ImplementationDecides(limits, task, base, input);
      ClosingKeeps(StageLaws.RecordOf(base), Implementing);
    } else {
      StageLaws.ImplementationNotDue(limits, task, base, input);
      NothingLeft(limits, task, base, input);
    }
  }

  lemma ClosingKeeps(found: StageLaws.Record, stage: TaskState)
    ensures forall checkpoints :: StageLaws.Closing(found, stage, checkpoints).checkpoints == checkpoints
  {
  }

  lemma BeginningKeeps(limits: Limits, task: Task, base: Store, input: StageInput)
    requires base.Prepared(limits.units)
    requires (task.state == Analyzing && input.AnalysisInput?) || (task.state == Ready && input.ReadyInput?)
    ensures Keeps(limits, task, base, input)
  {
    hide StagePlan, StageLaws.Left, NextAttempt, ApplyAll;
    if task.state == Ready {
      StageLaws.SetupDecides(limits, task, base, input);
    } else if input.preparation.WorkspacesReady? && !input.loadFails
              && base.checkpoints.analysis != Some(input.digest) {
      StageLaws.AnalysisDecides(limits, task, base, input);
    } else {
      StageLaws.AnalysisNotDue(limits, task, base, input);
      NothingLeft(limits, task, base, input);
    }
  }

  lemma DeliveryKeeps(limits: Limits, task: Task, base: Store, input: StageInput)
    requires base.Prepared(limits.units) && task.state == PrCreated && input.DeliveryInput?
    ensures Keeps(limits, task, base, input)
  {
    hide StagePlan, StageLaws.Left, NextAttempt, ApplyAll;
    StageLaws.DeliveryDecides(limits, task, base, input);
  }

  lemma ObservationKeeps(limits: Limits, task: Task, base: Store, input: StageInput)
    requires base.Prepared(limits.units) && task.state in {WaitingCi, ReadyForHumanReview} && input.ObservationInput?
    ensures Keeps(limits, task, base, input)
  {
  }

  /** Whatever a run found and met: if it advances, it leaves what it promises. */
  lemma EveryAdvanceKeeps(limits: Limits, task: Task, base: Store, input: StageInput)
    requires StoreOk(limits, base) && base.Prepared(limits.units) && AppliedIsOnRecord(base)
    ensures Keeps(limits, task, base, input)
  {
    hide StoreOk, Promises, StageLaws.Left, Keeps;
    if task.state == Testing && input.TestInput? {
      TestingKeeps(limits, task, base, input);
    } else if task.state == Reviewing && input.ReviewInput? {
      ReviewKeeps(limits, task, base, input);
    } else if task.state in {Implementing, Fixing} && input.WorkInput? {
      WorkKeeps(limits, task, base, input);
    } else if (task.state == Analyzing && input.AnalysisInput?) || (task.state == Ready && input.ReadyInput?) {
      BeginningKeeps(limits, task, base, input);
    } else if task.state == PrCreated && input.DeliveryInput? {
      DeliveryKeeps(limits, task, base, input);
    } else if task.state in {WaitingCi, ReadyForHumanReview} && input.ObservationInput? {
      ObservationKeeps(limits, task, base, input);
    } else {
      OtherInputThrows(limits, task, base, input);
    }
  }

  lemma OtherInputThrows(limits: Limits, task: Task, base: Store, input: StageInput)
    requires base.Prepared(limits.units)
    requires !(task.state == Testing && input.TestInput?) && !(task.state == Reviewing && input.ReviewInput?)
    requires !(task.state in {Implementing, Fixing} && input.WorkInput?)
    requires !(task.state == Analyzing && input.AnalysisInput?) && !(task.state == Ready && input.ReadyInput?)
    requires !(task.state == PrCreated && input.DeliveryInput?)
    requires !(task.state in {WaitingCi, ReadyForHumanReview} && input.ObservationInput?)
    ensures Keeps(limits, task, base, input)
  {
  }

  // ------------------------------------------------------------------ in every run

  /** The input of the run that ends, and what the advance it makes promises. */
  ghost predicate PromiseKept(setting: Setting, exec: Exec, step: Step, to: TaskState, input: StageInput) {
    && AdvancedBy(setting, exec, step, to) && PlanOf(setting, exec.running.value, input)
    && exec.running.value.base.Prepared(setting.limits.units)
    && Promises(setting.limits, exec.running.value.task, exec.running.value.base, input, to, exec.store.checkpoints)
  }

  /**
   In every run, whatever others commit, crash or decide in between: a step that advances the task is the end of a
   handler of its state, and the checkpoints it leaves are those its next stage relies on.
   */
  lemma AdvanceLeavesItsRecord(setting: Setting, exec: Exec, step: Step) returns (input: StageInput)
    requires StoreKept(setting, exec) && RunningRow(setting, exec) && RecordsKept(exec)
    requires setting.id in exec.db.tasks
    requires var after := Next(setting, exec, step);
      && setting.id in after.db.tasks
      && IsAdvance(exec.db.tasks[setting.id].state, after.db.tasks[setting.id].state)
    ensures PromiseKept(setting, exec, step, Next(setting, exec, step).db.tasks[setting.id].state, input)
  {
    hide StoreOk, StagePlan, ApplyAll, Own, OutcomeApplied, TaskActions.Perform, Promises, AppliedIsOnRecord, Next,
         Follows;
    AdvanceIsAFinish(setting, exec, step);
    var running := exec.running.value;
    var woven;
    input, woven :| PlanUnderway(setting, exec, input, woven);
    StoreIsPrepared(setting.limits, running.base);
    EveryAdvanceKeeps(setting.limits, running.task, running.base, input);
    assert running.plan.effects[..running.done] == running.plan.effects;
    StageCrashSafe(setting.limits, running.task, running.base, input, woven);
    FollowsKeepsCheckpoints(ApplyAll(running.base, running.plan.effects), exec.store);
  }

  lemma FollowsKeepsCheckpoints(expected: Store, actual: Store)
    requires Follows(expected, actual)
    ensures actual.checkpoints == expected.checkpoints && actual.rows == expected.rows
  {
  }

  lemma {:induction false} RecordsKeptInEveryRun(setting: Setting, start: Exec, steps: seq<Step>)
    requires RecordsKept(start)
    ensures RecordsKept(NextAll(setting, start, steps))
  {
    hide Next;
    if |steps| > 0 {
      RecordsKeptInEveryRun(setting, start, steps[..|steps| - 1]);
      RecordsKeptStep(setting, NextAll(setting, start, steps[..|steps| - 1]), steps[|steps| - 1]);
    }
  }

  /** The same, for the last step of any run of a new task. */
  lemma AdvancesKeepPromisesInEveryRun(setting: Setting, start: Exec, steps: seq<Step>, step: Step)
    returns (input: StageInput)
    requires DistinctUnits(setting.limits.units) && FreshStore(setting.limits, start.store) && start.running.None?
    requires Initial(start.db) && setting.id in start.db.tasks
    requires var before := NextAll(setting, start, steps);
      && setting.id in before.db.tasks && setting.id in Next(setting, before, step).db.tasks
      && IsAdvance(before.db.tasks[setting.id].state, Next(setting, before, step).db.tasks[setting.id].state)
    ensures var before := NextAll(setting, start, steps);
      PromiseKept(setting, before, step, Next(setting, before, step).db.tasks[setting.id].state, input)
  {
    hide Next, NextAll, StoreOk;
    RunsBeginInOrder(setting, start);
    CountersWithinLimits(setting, start, steps);
    RecordsKeptInEveryRun(setting, start, steps);
    input := AdvanceLeavesItsRecord(setting, NextAll(setting, start, steps), step);
  }

  // ------------------------------------------------------------------ from the checks to human review

  /** The unit was seen in place, and either merged or with every required check granted. */
  predicate SettledUnit(limits: Limits, base: Store, unit: Commits.Repository, turn: Observation.Turn) {
    && unit in base.rows && turn.Seen?
    && ObservationLaws.InPlace(PolicyOf(limits, unit), base.rows[unit], turn.facts)
    && (turn.facts.merged
        || (ObservationLaws.AwaitsMerge(PolicyOf(limits, unit), base.rows[unit], turn.facts)
            && ObservationLaws.ChecksGranted(turn.facts)))
  }

  lemma OnlySettledPassesReachReview(limits: Limits, task: Task, base: Store, input: StageInput)
    requires base.Prepared(limits.units) && task.state == WaitingCi
    requires StagePlan(limits, task, base, input).outcome.Advance?
    requires StagePlan(limits, task, base, input).outcome.to == ReadyForHumanReview
    ensures input.ObservationInput? && input.matches
    ensures Observation.StopsAt(input.turns, 0, |limits.units|) == |limits.units|
    ensures Observation.UnitBlocked !in Deliveries(limits, base, input.turns, |limits.units|)
    ensures Observation.ChecksPending !in Deliveries(limits, base, input.turns, |limits.units|)
  {
    assert input.ObservationInput? && input.matches;
    var n := Observation.StopsAt(input.turns, 0, |limits.units|);
    assert PassEnding(limits, task, base, input) == Observation.ReadyForReview;
    assert n == |limits.units|;
    ObservationLaws.WaitingPassDecides(Deliveries(limits, base, input.turns, n), input.commented, input.retryAt,
                                       input.pollAt);
  }

  lemma NeitherBlockedNorPending(limits: Limits, base: Store, unit: Commits.Repository, turn: Observation.Turn)
    requires unit in base.rows && turn.Seen?
    requires Observed(limits, base, unit, turn) !in {Observation.UnitBlocked, Observation.ChecksPending}
    ensures SettledUnit(limits, base, unit, turn)
  {
    ObservationLaws.SettledMeans(PolicyOf(limits, unit), base.rows[unit], turn.facts, turn.now);
  }

  lemma SettledPass(limits: Limits, task: Task, base: Store, input: StageInput)
    requires base.Prepared(limits.units) && task.state == WaitingCi
    requires StagePlan(limits, task, base, input).outcome.Advance?
    requires StagePlan(limits, task, base, input).outcome.to == ReadyForHumanReview
    ensures input.ObservationInput?
    ensures forall i :: 0 <= i < |limits.units| ==>
      SettledUnit(limits, base, limits.units[i], Observation.TurnAt(input.turns, i))
  {
    hide StagePlan, SettledUnit;
    OnlySettledPassesReachReview(limits, task, base, input);
    var deliveries := Deliveries(limits, base, input.turns, |limits.units|);
    forall i | 0 <= i < |limits.units|
      ensures SettledUnit(limits, base, limits.units[i], Observation.TurnAt(input.turns, i))
    {
      assert deliveries[i] in deliveries;
      NeitherBlockedNorPending(limits, base, limits.units[i], Observation.TurnAt(input.turns, i));
    }
  }

  /**
   A step that takes a task from waiting for checks to human review is the end of a pass that saw every pull request in
   place, and each of them merged or with all that its base requires granted.
   */
  lemma ReviewNeedsEveryCheck(setting: Setting, exec: Exec, step: Step) returns (input: StageInput)
    requires StoreKept(setting, exec) && RunningRow(setting, exec) && setting.id in exec.db.tasks
    requires exec.db.tasks[setting.id].state == WaitingCi
    requires var after := Next(setting, exec, step).db;
      setting.id in after.tasks && after.tasks[setting.id].state == ReadyForHumanReview
    ensures AdvancedBy(setting, exec, step, ReadyForHumanReview) && PlanOf(setting, exec.running.value, input)
    ensures input.ObservationInput?
    ensures forall i :: 0 <= i < |setting.limits.units| ==>
      SettledUnit(setting.limits, exec.running.value.base, setting.limits.units[i],
                  Observation.TurnAt(input.turns, i))
  {
    hide StoreOk, StagePlan, ApplyAll, Own, OutcomeApplied, TaskActions.Perform, Next, SettledUnit;
    AdvanceIsAFinish(setting, exec, step);
    var running := exec.running.value;
    var woven;
    input, woven :| PlanUnderway(setting, exec, input, woven);
    StoreIsPrepared(setting.limits, running.base);
    SettledPass(setting.limits, running.task, running.base, input);
  }

  /** One pass over units that can all be observed: what their verdicts make of the task. */
  lemma PassDecides(limits: Limits, task: Task, base: Store, input: StageInput)
    requires base.Prepared(limits.units) && task.state in {WaitingCi, ReadyForHumanReview} && input.ObservationInput?
    requires input.matches
    requires forall i :: 0 <= i < |limits.units| ==> Observation.TurnAt(input.turns, i).Seen?
    ensures var verdicts := Deliveries(limits, base, input.turns, |limits.units|);
      var merged := forall i :: 0 <= i < |verdicts| ==> verdicts[i].UnitMerged?;
      StagePlan(limits, task, base, input).outcome ==
        if Observation.UnitBlocked in verdicts then Advance(Blocked, None, true)
        else if Observation.ChecksPending in verdicts then
          if task.state == WaitingCi then Wait(input.pollAt) else Advance(WaitingCi, None, false)
        else if merged then
          if task.state == WaitingCi then Advance(ReadyForHumanReview, None, false)
          else if input.commented then Advance(Completed, None, false)
          else Wait(input.retryAt)
        else if task.state == ReadyForHumanReview then Wait(input.pollAt)
        else if input.commented then Advance(ReadyForHumanReview, None, false)
        else Wait(input.retryAt)
  {
    NeverStops(input.turns, 0, |limits.units|);
    var verdicts := Deliveries(limits, base, input.turns, |limits.units|);
    ObservationLaws.WaitingPassDecides(verdicts, input.commented, input.retryAt, input.pollAt);
    ObservationLaws.ReviewPassDecides(verdicts, input.commented, input.retryAt, input.pollAt);
  }

  lemma {:induction false} NeverStops(turns: seq<Observation.Turn>, from: nat, n: nat)
    requires from <= n && forall i :: from <= i < n ==> Observation.TurnAt(turns, i).Seen?
    ensures Observation.StopsAt(turns, from, n) == n
    decreases n - from
  {
    if from < n {
      NeverStops(turns, from + 1, n);
    }
  }

  /** A pass that cannot observe some unit ends there: it waits, asks an operator, fails, or is only interrupted. */
  lemma StoppedPassDecides(limits: Limits, task: Task, base: Store, input: StageInput, k: nat)
    requires base.Prepared(limits.units) && task.state in {WaitingCi, ReadyForHumanReview} && input.ObservationInput?
    requires input.matches && k < |limits.units| && !Observation.TurnAt(input.turns, k).Seen?
    requires forall i :: 0 <= i < k ==> Observation.TurnAt(input.turns, i).Seen?
    ensures StagePlan(limits, task, base, input).outcome ==
      match Observation.TurnAt(input.turns, k)
      case Unavailable(retryAt) => Wait(retryAt)
      case ProviderRejected => Advance(Blocked, None, true)
      case LeaseGone => Threw
      case _ => Interrupted
    ensures |StagePlan(limits, task, base, input).effects| == k
  {
    StopsAtFirst(input.turns, 0, k, |limits.units|);
  }

  lemma {:induction false} StopsAtFirst(turns: seq<Observation.Turn>, from: nat, k: nat, n: nat)
    requires from <= k < n && !Observation.TurnAt(turns, k).Seen?
    requires forall i :: from <= i < k ==> Observation.TurnAt(turns, i).Seen?
    ensures Observation.StopsAt(turns, from, n) == k
    decreases k - from
  {
    if from < k {
      StopsAtFirst(turns, from + 1, k, n);
    }
  }

  // ------------------------------------------------------------------ what an outcome does to its row

  predicate SameCounters(before: Task, after: Task) {
    && after.implementationAttempts == before.implementationAttempts
    && after.qualityFixAttempts == before.qualityFixAttempts
    && after.reviewAttempts == before.reviewAttempts
  }

  /** One counter has gone up by one, or none. */
  predicate CountedOnce(before: Task, after: Task, counter: Option<AttemptCounter>) {
    match counter
    case None => SameCounters(before, after)
    case Some(ImplementationAttempts) =>
      SameCounters(before.(implementationAttempts := before.implementationAttempts + 1), after)
    case Some(QualityFixAttempts) => SameCounters(before.(qualityFixAttempts := before.qualityFixAttempts + 1), after)
    case Some(ReviewAttempts) => SameCounters(before.(reviewAttempts := before.reviewAttempts + 1), after)
  }

  /** Flagged for an operator, let go, and blocked where that is legal. */
  predicate HandedOver(before: Task, after: Task) {
    && after.requiresManualIntervention && after.lease.None? && SameCounters(before, after)
    && after.state == if CanTransition(before.state, Blocked) then Blocked else before.state
  }

  /** Only the task's own row changes. */
  predicate OthersStand(setting: Setting, before: Db, after: Db) {
    && setting.id in before.tasks && setting.id in after.tasks
    && after.tasks == before.tasks[setting.id := after.tasks[setting.id]]
  }

  lemma FailureLeaves(setting: Setting, db: Db, worker: Worker)
    requires setting.id in db.tasks && db.tasks[setting.id].LeasedTo(worker)
    ensures var after := FailedTask(db, setting.id, worker);
      OthersStand(setting, db, after) && HandedOver(db.tasks[setting.id], after.tasks[setting.id])
  {
  }

  /** An accepted advance keeps the lease and spends what it says; one that is not legal hands the task over. */
  lemma AdvanceLeaves(setting: Setting, db: Db, worker: Worker, outcome: StageOutcome)
    requires setting.id in db.tasks && db.tasks[setting.id].LeasedTo(worker)
    requires outcome.Advance? && !IsPause(outcome.to)
    ensures var row := db.tasks[setting.id];
      var after := OutcomeApplied(setting, db, worker, row.state, outcome);
      && OthersStand(setting, db, after)
      && if CanTransition(row.state, outcome.to) then
           && after.tasks[setting.id].state == outcome.to && after.tasks[setting.id].lease == row.lease
           && after.tasks[setting.id].resumeState.None? && after.tasks[setting.id].resumeAfter.None?
           && after.tasks[setting.id].pauseReason.None? && after.tasks[setting.id].pausedAt.None?
           && CountedOnce(row, after.tasks[setting.id], outcome.increment)
           && after.tasks[setting.id].requiresManualIntervention == (outcome.manual || row.requiresManualIntervention)
         else HandedOver(row, after.tasks[setting.id])
  {
    hide FailedTask, CanTransition;
    FailureLeaves(setting, db, worker);
  }

  /**
   A limit parks the task, to resume where it stands and not before its time, or before the configured pause is over
   when it came without one.
   */
  lemma LimitLeaves(setting: Setting, db: Db, worker: Worker, outcome: StageOutcome)
    requires setting.id in db.tasks && db.tasks[setting.id].LeasedTo(worker) && outcome.PauseLimit?
    ensures var row := db.tasks[setting.id];
      var after := OutcomeApplied(setting, db, worker, row.state, outcome);
      && OthersStand(setting, db, after)
      && if row.state in {Analyzing, Implementing, Fixing, Reviewing} then
           && after.tasks[setting.id].state == PausedLimit && after.tasks[setting.id].resumeState == Some(row.state)
           && after.tasks[setting.id].pauseReason == Some(outcome.reason) && after.tasks[setting.id].lease.None?
           && SameCounters(row, after.tasks[setting.id]) && after.tasks[setting.id].pausedAt == Some(db.clock)
           && after.tasks[setting.id].resumeAfter
              == Some(if outcome.resumeAfter.Some? then outcome.resumeAfter.value
                      else db.clock + setting.usageLimitPauseMs)
           && after.tasks[setting.id].requiresManualIntervention == row.requiresManualIntervention
         else HandedOver(row, after.tasks[setting.id])
  {
    hide FailedTask;
    FailureLeaves(setting, db, worker);
    var state := db.tasks[setting.id].state;
    assert CanTransition(state, PausedLimit) <==> state in {Analyzing, Implementing, Fixing, Reviewing};
  }

  /** A wait lets the task go until its time, an abort leaves it with its holder, and an error hands it over. */
  lemma EndingLeaves(setting: Setting, db: Db, worker: Worker, outcome: StageOutcome)
    requires setting.id in db.tasks && db.tasks[setting.id].LeasedTo(worker)
    requires outcome.Wait? || outcome.Interrupted? || outcome.Threw?
    ensures var row := db.tasks[setting.id];
      var after := OutcomeApplied(setting, db, worker, row.state, outcome);
      && OthersStand(setting, db, after)
      && (outcome.Wait? ==> after.tasks[setting.id] == row.(lease := None, resumeAfter := Some(outcome.until)))
      && (outcome.Interrupted? ==> after == db)
      && (outcome.Threw? ==> HandedOver(row, after.tasks[setting.id]))
  {
    hide FailedTask;
    FailureLeaves(setting, db, worker);
  }
}
