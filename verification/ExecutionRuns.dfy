/**
 One supervised task over whole runs: workers claim and lose it, handlers run effect by effect and may crash anywhere,
 other people commit to its branches at any moment, recovery and the operator interleave freely. A task is claimed only
 after an earlier holder's handler has stopped.
 */
module ExecutionRuns {
  import opened Wrappers
  import opened Domain
  import opened Tasks
  import opened TaskActions
  import opened Commits
  import opened ExecutionStore
  import opened StagePlans
  import opened ExecutionSafety
  import opened ExecutionDrift
  import opened ExecutionPlansSafe
  import Observation
  import TaskRuns

  const EXECUTION_STATES: set<TaskState> := {Analyzing, Ready, Implementing, Testing, Fixing, Reviewing}

  datatype Setting = Setting(config: Config, limits: Limits, id: TaskId, usageLimitPauseMs: nat)

  /** A handler at work: the row it was given, the store it found, its plan, and how many effects it has performed. */
  datatype Running = Running(worker: Worker, task: Task, base: Store, plan: Plan, done: nat)

  datatype Exec = Exec(db: Db, store: Store, running: Option<Running>, advances: nat)

  datatype Step =
    | Table(action: Action)
    | Begin(worker: Worker, input: StageInput)
    | NextEffect
    | Finish
    | Crash
    /** Somebody else's commit on a branch of the task. */
    | Foreign(repository: Commits.Repository)

  // ------------------------------------------------------------------ applying an outcome

  /** The transition the scheduler asks for after an outcome that moves the task. */
  function OutcomeTransition(setting: Setting, worker: Worker, state: TaskState, outcome: StageOutcome,
                             now: int): Option<LockedTransition> {
    match outcome
    case Advance(to, increment, manual) =>
      Some(LockedTransition(to, leaseOwner := Some(worker), increment := increment,
        requiresManualIntervention := if manual then Some(true) else None))
    case PauseLimit(reason, resumeAfter) =>
      Some(LockedTransition(PausedLimit, resumeState := Some(state), pauseReason := Some(reason),
        resumeAfter := Some(GetOr(resumeAfter, now + setting.usageLimitPauseMs)), leaseOwner := Some(worker),
        lease := ClearLease))
    case _ => None
  }

  /** Hands a failed stage to an operator, unless the worker no longer holds the task. */
  function FailedTask(db: Db, id: TaskId, worker: Worker): Db {
    if id !in db.tasks || !db.tasks[id].LeasedTo(worker) then db
    else if CanTransition(db.tasks[id].state, Blocked) then
      Settled(db, Transitioned(db, id, LockedTransition(Blocked, leaseOwner := Some(worker),
        requiresManualIntervention := Some(true), lease := ClearLease)))
    else Settled(db, Released(db, id, worker, Some("stage failed"), Some(true)))
  }

  function OutcomeApplied(setting: Setting, db: Db, worker: Worker, state: TaskState, outcome: StageOutcome): Db {
    var transition := OutcomeTransition(setting, worker, state, outcome, db.clock);
    if transition.Some? then
      match Transitioned(db, setting.id, transition.value)
      case Ok(after) => after
      case Err(LeaseOwnership) => db
      case Err(_) => FailedTask(db, setting.id, worker)
    else if outcome.Wait? then Settled(db, Deferred(db, setting.id, worker, outcome.until, None))
    else if outcome.Threw? then FailedTask(db, setting.id, worker)
    else db
  }

  // ------------------------------------------------------------------ steps

  /**
   Between handler runs a worker may only cancel, hand over, park or pause the task where it stands. The table refuses
   this while another worker holds the row, and accepts it from a former holder of a row that nobody holds.
   */
  predicate BoundaryTransition(row: Task, worker: Worker, input: LockedTransition) {
    && SchedulerInput(worker, input)
    && input.lease.ClearLease? && input.increment.None?
    && (IsPause(input.to) ==> input.resumeState == Some(row.state))
  }

  predicate TableEnabled(setting: Setting, exec: Exec, action: Action) {
    match action
    case Claim(_, _, _, _, _, chosen) => chosen == setting.id ==> exec.running.None?
    case WorkerTransition(worker, id, input) =>
      id == setting.id ==>
        exec.running.None? && id in exec.db.tasks && BoundaryTransition(exec.db.tasks[id], worker, input)
    case Release(_, id, _, _) => id == setting.id ==> exec.running.None?
    case Defer(_, id, _, _) => id == setting.id ==> exec.running.None?
    case _ => true
  }

  predicate Enabled(setting: Setting, exec: Exec, step: Step) {
    match step
    case Table(action) => TableEnabled(setting, exec, action)
    case Begin(worker, _) =>
      && exec.running.None? && setting.id in exec.db.tasks && exec.db.tasks[setting.id].LeasedTo(worker)
      && exec.db.tasks[setting.id].state in EXECUTION_STATES + DELIVERY_STATES
      && exec.store.Prepared(setting.limits.units)
    case NextEffect => exec.running.Some? && exec.running.value.done < |exec.running.value.plan.effects|
    case Finish => exec.running.Some? && exec.running.value.done == |exec.running.value.plan.effects|
    case Crash => exec.running.Some?
    case Foreign(_) => true
  }

  /** The outcome is an advance out of an execution state that the table accepts. */
  predicate Advances(setting: Setting, exec: Exec)
    requires exec.running.Some?
  {
    var running := exec.running.value;
    && running.plan.outcome.Advance? && running.task.state in EXECUTION_STATES
    && Transitioned(exec.db, setting.id,
         OutcomeTransition(setting, running.worker, running.task.state, running.plan.outcome, exec.db.clock).value).Ok?
  }

  function Next(setting: Setting, exec: Exec, step: Step): Exec {
    if !Enabled(setting, exec, step) then exec
    else
      match step
      case Table(action) => exec.(db := TaskActions.Perform(setting.config, exec.db, action))
      case Begin(worker, input) =>
        var task := exec.db.tasks[setting.id];
        exec.(running := Some(Running(worker, task, exec.store, StagePlan(setting.limits, task, exec.store, input), 0)))
      case NextEffect =>
        var running := exec.running.value;
        exec.(store := Apply(exec.store, running.plan.effects[running.done]),
              running := Some(running.(done := running.done + 1)))
      case Finish =>
        var running := exec.running.value;
        exec.(
          db := OutcomeApplied(setting, exec.db, running.worker, running.task.state, running.plan.outcome),
          running := None,
          advances := exec.advances + if Advances(setting, exec) then 1 else 0)
      case Crash => exec.(running := None)
      case Foreign(repository) => exec.(store := Apply(exec.store, ForeignMove(repository)))
  }

  function NextAll(setting: Setting, exec: Exec, steps: seq<Step>): Exec {
    if |steps| == 0 then exec
    else Next(setting, NextAll(setting, exec, steps[..|steps| - 1]), steps[|steps| - 1])
  }

  // ------------------------------------------------------------------ the store over whole runs

  /** The plan of a run, made for a store in order. */
  ghost predicate PlanOf(setting: Setting, running: Running, input: StageInput) {
    && StoreOk(setting.limits, running.base)
    && running.plan == StagePlan(setting.limits, running.task, running.base, input)
  }

  /** The running handler is part way through its plan; `woven` is all that has happened to the store since it began. */
  ghost predicate PlanUnderway(setting: Setting, exec: Exec, input: StageInput, woven: seq<Effect>)
    requires exec.running.Some?
  {
    var running := exec.running.value;
    && running.done <= |running.plan.effects|
    && PlanOf(setting, running, input)
    && Own(woven) == running.plan.effects[..running.done]
    && exec.store == ApplyAll(running.base, woven)
  }

  ghost predicate StoreKept(setting: Setting, exec: Exec) {
    && DistinctUnits(setting.limits.units)
    && StoreOk(setting.limits, exec.store)
    && (exec.running.Some? ==> exists input, woven :: PlanUnderway(setting, exec, input, woven))
  }

  lemma StoreStep(setting: Setting, exec: Exec, step: Step)
    requires StoreKept(setting, exec)
    ensures StoreKept(setting, Next(setting, exec, step))
  {
    hide StoreOk, StagePlan, PlanOf, ApplyAll, Own, TaskActions.Perform, OutcomeApplied;
    var after := Next(setting, exec, step);
    match step {
      case Begin(_, input) =>
        if Enabled(setting, exec, step) {
          PlanBegins(setting, exec, after, input);
        } else {
          StillUnderway(setting, exec, after);
        }
      case NextEffect =>
        if Enabled(setting, exec, step) {
          var input, woven :| PlanUnderway(setting, exec, input, woven);
          EffectStep(setting, exec, input, woven);
        } else {
          StillUnderway(setting, exec, after);
        }
      case Foreign(repository) =>
        ForeignStep(setting, exec, repository);
      case _ =>
        if after.running.Some? {
          StillUnderway(setting, exec, after);
        }
    }
  }

  lemma StillUnderway(setting: Setting, exec: Exec, after: Exec)
    requires StoreKept(setting, exec) && after.running == exec.running && after.store == exec.store
    ensures StoreKept(setting, after)
  {
    if exec.running.Some? {
      var input, woven :| PlanUnderway(setting, exec, input, woven);
      assert PlanUnderway(setting, after, input, woven);
    }
  }

  lemma PlanBegins(setting: Setting, exec: Exec, after: Exec, input: StageInput)
    requires StoreKept(setting, exec) && after.store == exec.store && exec.store.Prepared(setting.limits.units)
    requires after.running.Some?
    requires var running := after.running.value;
      && running.base == exec.store && running.done == 0
      && running.plan == StagePlan(setting.limits, running.task, running.base, input)
    ensures StoreKept(setting, after)
  {
    assert PlanUnderway(setting, after, input, []);
  }

  /** The next effect of the plan, after whatever others have done. */
  lemma EffectStep(setting: Setting, exec: Exec, input: StageInput, woven: seq<Effect>)
    requires StoreKept(setting, exec) && Enabled(setting, exec, NextEffect) && PlanUnderway(setting, exec, input, woven)
    ensures StoreKept(setting, Next(setting, exec, NextEffect))
  {
    hide StoreOk, StagePlan, ApplyAll, WovenSoFar;
    var running := exec.running.value;
    var effects := running.plan.effects;
    var longer := woven + [effects[running.done]];
    OwnNext(woven, effects[running.done]);
    PlanMovesNothing(setting, running, input, running.done);
    assert effects[..running.done + 1] == effects[..running.done] + [effects[running.done]];
    ApplyNext(running.base, woven, effects[running.done]);
    StoreIsPrepared(setting.limits, running.base);
    StageCrashSafe(setting.limits, running.task, running.base, input, longer);
    assert PlanUnderway(setting, Next(setting, exec, NextEffect), input, longer);
  }

  /** Plans contain no commits of other people. */
  lemma PlanMovesNothing(setting: Setting, running: Running, input: StageInput, i: nat)
    requires PlanOf(setting, running, input) && i < |running.plan.effects|
    ensures !running.plan.effects[i].ForeignMove?
  {
    hide StoreOk, StagePlan;
    StoreIsPrepared(setting.limits, running.base);
    PlansMoveNothing(setting.limits, running.task, running.base, input);
  }

  lemma ForeignStep(setting: Setting, exec: Exec, repository: Commits.Repository)
    requires StoreKept(setting, exec)
    ensures StoreKept(setting, Next(setting, exec, Foreign(repository)))
  {
    hide StoreOk, StagePlan, PlanOf, ApplyAll;
    AllowedKeepsStore(setting.limits, exec.store, ForeignMove(repository));
    if exec.running.Some? {
      var input, woven :| PlanUnderway(setting, exec, input, woven);
      OwnNext(woven, ForeignMove(repository));
      ApplyNext(exec.running.value.base, woven, ForeignMove(repository));
      assert PlanUnderway(setting, Next(setting, exec, Foreign(repository)), input, woven + [ForeignMove(repository)]);
    }
  }

  /**
   In every run, wherever handlers crash and whatever others commit in between: each branch carries at most one
   implementation commit and one commit per fix request, requests are fresh, every pushed vector was verified and then
   approved, and agents and gates ran clean.
   */
  lemma {:induction false} StoreInOrderInEveryRun(setting: Setting, start: Exec, steps: seq<Step>)
    requires StoreKept(setting, start)
    ensures StoreKept(setting, NextAll(setting, start, steps))
  {
    if |steps| > 0 {
      StoreInOrderInEveryRun(setting, start, steps[..|steps| - 1]);
      StoreStep(setting, NextAll(setting, start, steps[..|steps| - 1]), steps[|steps| - 1]);
    }
  }

  // ------------------------------------------------------------------ the row a handler was given

  predicate SameProgress(left: Task, right: Task) {
    && left.state == right.state
    && left.implementationAttempts == right.implementationAttempts
    && left.qualityFixAttempts == right.qualityFixAttempts
    && left.reviewAttempts == right.reviewAttempts
  }

  /** While a handler runs, its row stands still under its lease, or the lease is gone and the row left the stage. */
  predicate RunningRow(setting: Setting, exec: Exec) {
    exec.running.Some? ==>
      && setting.id in exec.db.tasks
      && exec.running.value.task.state in EXECUTION_STATES + DELIVERY_STATES
      && var row := exec.db.tasks[setting.id];
         if row.LeasedTo(exec.running.value.worker) then SameProgress(row, exec.running.value.task)
         else row.lease.None? && row.state in {Blocked, Queued, Cancelled}
  }

  lemma OtherRowKept(setting: Setting, db: Db, action: Action)
    requires setting.id in db.tasks && Target(action) != Some(setting.id)
    ensures var after := TaskActions.Perform(setting.config, db, action);
      setting.id in after.tasks && after.tasks[setting.id] == db.tasks[setting.id]
  {
    TaskRuns.PerformShape(setting.config, db, action);
  }

  /** What the actions that may hit a running task's row do to it. */
  lemma RowUnderRun(setting: Setting, exec: Exec, action: Action)
    requires RunningRow(setting, exec) && exec.running.Some? && TableEnabled(setting, exec, action)
    ensures RunningRow(setting, exec.(db := TaskActions.Perform(setting.config, exec.db, action)))
  {
    if Target(action) != Some(setting.id) {
      OtherRowKept(setting, exec.db, action);
    }
  }

  lemma RunningRowStep(setting: Setting, exec: Exec, step: Step)
    requires RunningRow(setting, exec)
    ensures RunningRow(setting, Next(setting, exec, step))
  {
    if step.Table? && exec.running.Some? && Enabled(setting, exec, step) {
      RowUnderRun(setting, exec, step.action);
    }
  }

  // ------------------------------------------------------------------ progress

  function Rank(state: TaskState): nat {
    match state
    case Queued => 6
    case Analyzing => 6
    case Ready => 5
    case Implementing => 4
    case Fixing => 3
    case Testing => 2
    case Reviewing => 1
    case _ => 0
  }

  /** The state a task works in: a paused task stands where it will resume. */
  function Standing(task: Task): TaskState {
    if IsPause(task.state) && task.resumeState.Some? then task.resumeState.value else task.state
  }

  function Allowance(limits: Limits): nat {
    limits.maxImplementationAttempts + limits.maxQualityFixAttempts + limits.maxReviewCycles
  }

  function Used(task: Task): nat {
    task.implementationAttempts + task.qualityFixAttempts + task.reviewAttempts
  }

  /** Three for every unused attempt, plus the rank of the state the task stands in. */
  function Potential(limits: Limits, task: Task): int {
    3 * (Allowance(limits) - Used(task)) + Rank(Standing(task))
  }

  predicate WithinLimits(limits: Limits, task: Task) {
    && task.implementationAttempts <= limits.maxImplementationAttempts
    && task.qualityFixAttempts <= limits.maxQualityFixAttempts
    && task.reviewAttempts <= limits.maxReviewCycles
  }

  function Counter(task: Task, counter: AttemptCounter): nat {
    match counter
    case ImplementationAttempts => task.implementationAttempts
    case QualityFixAttempts => task.qualityFixAttempts
    case ReviewAttempts => task.reviewAttempts
  }

  function Limit(limits: Limits, counter: AttemptCounter): nat {
    match counter
    case ImplementationAttempts => limits.maxImplementationAttempts
    case QualityFixAttempts => limits.maxQualityFixAttempts
    case ReviewAttempts => limits.maxReviewCycles
  }

  /** The outcome goes down in rank, or spends an attempt the task still has. */
  predicate GoesDown(limits: Limits, task: Task, outcome: StageOutcome) {
    outcome.Advance? ==>
      && !IsPause(outcome.to)
      && (outcome.increment.None? ==> Rank(outcome.to) < Rank(task.state))
      && (outcome.increment.Some? ==>
            && Rank(outcome.to) < Rank(task.state) + 3
            && Counter(task, outcome.increment.value) < Limit(limits, outcome.increment.value))
  }

  lemma ImplementationGoesDown(limits: Limits, task: Task, store: Store, input: StageInput)
    requires BranchesOk(limits, store) && task.state == Implementing && input.WorkInput?
    ensures GoesDown(limits, task, ImplementationPlan(limits, task, store, input).outcome)
  {
    assert store.checkpoints.implementation.Some?
       ==> store.checkpoints.implementation.value.attempt <= limits.maxImplementationAttempts;
  }

  lemma TestingGoesDown(limits: Limits, task: Task, store: Store, input: StageInput)
    requires store.Prepared(limits.units) && task.state == Testing && input.TestInput?
    ensures GoesDown(limits, task, TestingPlan(limits, task, store, input).outcome)
  {
  }

  lemma FixingGoesDown(limits: Limits, task: Task, store: Store, input: StageInput)
    requires store.Prepared(limits.units) && task.state == Fixing && input.WorkInput?
    ensures GoesDown(limits, task, FixingPlan(limits, store, input).outcome)
  {
  }

  lemma ReviewGoesDown(limits: Limits, task: Task, store: Store, input: StageInput)
    requires store.Prepared(limits.units) && task.state == Reviewing && input.ReviewInput?
    ensures GoesDown(limits, task, ReviewPlan(limits, task, store, input).outcome)
  {
  }

  lemma BeginningGoesDown(limits: Limits, task: Task, store: Store, input: StageInput)
    requires store.Prepared(limits.units)
    ensures task.state == Analyzing && input.AnalysisInput?
            ==> GoesDown(limits, task, AnalysisPlan(limits, store, input).outcome)
    ensures task.state == Ready && input.ReadyInput? ==> GoesDown(limits, task, ReadyPlan(limits, store, input).outcome)
  {
  }

  /** Every advance out of an execution state goes down. */
  lemma AdvanceGoesDown(limits: Limits, task: Task, store: Store, input: StageInput)
    requires BranchesOk(limits, store) && task.state in EXECUTION_STATES
    ensures GoesDown(limits, task, StagePlan(limits, task, store, input).outcome)
  {
    match task.state {
      case Implementing => if input.WorkInput? { ImplementationGoesDown(limits, task, store, input); }
      case Testing => if input.TestInput? { TestingGoesDown(limits, task, store, input); }
      case Fixing => if input.WorkInput? { FixingGoesDown(limits, task, store, input); }
      case Reviewing => if input.ReviewInput? { ReviewGoesDown(limits, task, store, input); }
      case _ => BeginningGoesDown(limits, task, store, input);
    }
  }

  /** Handlers of delivery states spend no attempt. */
  lemma DeliverySpendsNothing(limits: Limits, task: Task, store: Store, input: StageInput)
    requires store.Prepared(limits.units) && task.state in DELIVERY_STATES
    requires StagePlan(limits, task, store, input).outcome.Advance?
    ensures StagePlan(limits, task, store, input).outcome.increment.None?
  {
  }

  /** A step that leaves the counters alone and does not raise the rank. */
  predicate NoGain(before: Task, after: Task) {
    && after.implementationAttempts == before.implementationAttempts
    && after.qualityFixAttempts == before.qualityFixAttempts
    && after.reviewAttempts == before.reviewAttempts
    && Rank(Standing(after)) <= Rank(Standing(before))
  }

  lemma TableGainsNothing(setting: Setting, exec: Exec, action: Action)
    requires setting.id in exec.db.tasks && TableEnabled(setting, exec, action) && action != Retry(setting.id)
    ensures var after := TaskActions.Perform(setting.config, exec.db, action);
      setting.id in after.tasks && NoGain(exec.db.tasks[setting.id], after.tasks[setting.id])
  {
    if Target(action) != Some(setting.id) {
      OtherRowKept(setting, exec.db, action);
    }
  }

  /** A retry grants at most a full allowance and a start from the queue. */
  lemma RetryGrantsOneCycle(setting: Setting, db: Db)
    requires setting.id in db.tasks && WithinLimits(setting.limits, db.tasks[setting.id])
    ensures var after := TaskActions.Perform(setting.config, db, Retry(setting.id));
      && setting.id in after.tasks && WithinLimits(setting.limits, after.tasks[setting.id])
      && Potential(setting.limits, after.tasks[setting.id]) <= 3 * Allowance(setting.limits) + 6
  {
  }

  lemma FailureGainsNothing(setting: Setting, db: Db, worker: Worker)
    requires setting.id in db.tasks
    ensures var after := FailedTask(db, setting.id, worker);
      setting.id in after.tasks && NoGain(db.tasks[setting.id], after.tasks[setting.id])
  {
  }

  /** An accepted advance changes the row's potential by what its outcome says. */
  lemma AdvanceLoses(setting: Setting, db: Db, worker: Worker, task: Task, outcome: StageOutcome)
    requires setting.id in db.tasks && outcome.Advance? && WithinLimits(setting.limits, db.tasks[setting.id])
    requires SameProgress(db.tasks[setting.id], task)
    requires if task.state in EXECUTION_STATES then GoesDown(setting.limits, task, outcome) else outcome.increment.None?
    requires task.state in EXECUTION_STATES + DELIVERY_STATES
    ensures var transition := OutcomeTransition(setting, worker, task.state, outcome, db.clock).value;
      var result := Transitioned(db, setting.id, transition);
      result.Ok? ==>
        && setting.id in result.value.tasks
        && WithinLimits(setting.limits, result.value.tasks[setting.id])
        && Potential(setting.limits, result.value.tasks[setting.id]) + (if task.state in EXECUTION_STATES then 1 else 0)
           <= Potential(setting.limits, db.tasks[setting.id])
  {
    var row := db.tasks[setting.id];
    var transition := OutcomeTransition(setting, worker, task.state, outcome, db.clock).value;
    var result := TransitionRow(row, transition, db.clock);
    if result.Ok? {
      var after := result.value;
      assert Used(after) == Used(row) + if outcome.increment.Some? then 1 else 0;
      assert Standing(after) == outcome.to;
      assert Standing(row) == row.state;
    }
  }

  /** Pausing where the task stands, or deferring it, gains nothing. */
  lemma ParkingGainsNothing(setting: Setting, db: Db, worker: Worker, state: TaskState, outcome: StageOutcome)
    requires setting.id in db.tasks && !outcome.Advance?
    requires var row := db.tasks[setting.id];
      if row.LeasedTo(worker) then state == row.state else row.lease.None? && row.state in {Blocked, Queued, Cancelled}
    ensures var after := OutcomeApplied(setting, db, worker, state, outcome);
      setting.id in after.tasks && NoGain(db.tasks[setting.id], after.tasks[setting.id])
  {
    FailureGainsNothing(setting, db, worker);
  }

  /** Applying an outcome never gains, and an advance out of an execution state loses. */
  lemma FinishLoses(setting: Setting, exec: Exec, input: StageInput)
    requires RunningRow(setting, exec) && Enabled(setting, exec, Finish) && PlanOf(setting, exec.running.value, input)
    requires WithinLimits(setting.limits, exec.db.tasks[setting.id])
    ensures var after := Next(setting, exec, Finish);
      && setting.id in after.db.tasks && WithinLimits(setting.limits, after.db.tasks[setting.id])
      && Potential(setting.limits, after.db.tasks[setting.id]) + (after.advances - exec.advances)
         <= Potential(setting.limits, exec.db.tasks[setting.id])
  {
    var running := exec.running.value;
    if !running.plan.outcome.Advance? {
      ParkingGainsNothing(setting, exec.db, running.worker, running.task.state, running.plan.outcome);
    } else {
      FailureGainsNothing(setting, exec.db, running.worker);
      if exec.db.tasks[setting.id].LeasedTo(running.worker) {
        if running.task.state in EXECUTION_STATES {
          AdvanceGoesDown(setting.limits, running.task, running.base, input);
        } else {
          DeliverySpendsNothing(setting.limits, running.task, running.base, input);
        }
        AdvanceLoses(setting, exec.db, running.worker, running.task, running.plan.outcome);
      }
    }
  }

  ghost predicate ProgressKept(setting: Setting, exec: Exec) {
    && StoreKept(setting, exec) && RunningRow(setting, exec)
    && setting.id in exec.db.tasks && WithinLimits(setting.limits, exec.db.tasks[setting.id])
  }

  lemma ProgressStep(setting: Setting, exec: Exec, step: Step)
    requires ProgressKept(setting, exec)
    ensures ProgressKept(setting, Next(setting, exec, step))
    ensures step != Table(Retry(setting.id)) ==>
      var after := Next(setting, exec, step);
      Potential(setting.limits, after.db.tasks[setting.id]) + (after.advances - exec.advances)
        <= Potential(setting.limits, exec.db.tasks[setting.id])
  {
    StoreStep(setting, exec, step);
    RunningRowStep(setting, exec, step);
    if Enabled(setting, exec, step) {
      if step == Table(Retry(setting.id)) {
        RetryGrantsOneCycle(setting, exec.db);
      } else if step.Table? {
        TableGainsNothing(setting, exec, step.action);
      } else if step.Finish? {
        var input, woven :| PlanUnderway(setting, exec, input, woven);
        FinishLoses(setting, exec, input);
      }
    }
  }

  /** No counter passes its limit in any run, operator retries included. */
  lemma {:induction false} CountersWithinLimits(setting: Setting, start: Exec, steps: seq<Step>)
    requires ProgressKept(setting, start)
    ensures ProgressKept(setting, NextAll(setting, start, steps))
  {
    if |steps| > 0 {
      CountersWithinLimits(setting, start, steps[..|steps| - 1]);
      ProgressStep(setting, NextAll(setting, start, steps[..|steps| - 1]), steps[|steps| - 1]);
    }
  }

  /** Between two operator retries the potential pays for every advance among the execution states. */
  lemma {:induction false} AdvancesArePaidFor(setting: Setting, start: Exec, steps: seq<Step>)
    requires ProgressKept(setting, start) && forall i :: 0 <= i < |steps| ==> steps[i] != Table(Retry(setting.id))
    ensures var end := NextAll(setting, start, steps);
      && ProgressKept(setting, end)
      && end.advances - start.advances
         <= Potential(setting.limits, start.db.tasks[setting.id]) - Potential(setting.limits, end.db.tasks[setting.id])
  {
    if |steps| > 0 {
      AdvancesArePaidFor(setting, start, steps[..|steps| - 1]);
      ProgressStep(setting, NextAll(setting, start, steps[..|steps| - 1]), steps[|steps| - 1]);
    }
  }

  /**
   However pauses, parks, interruptions, crashes and resumes interleave, the task makes a bounded number of advances.
   */
  lemma BoundedAdvances(setting: Setting, start: Exec, steps: seq<Step>)
    requires ProgressKept(setting, start) && forall i :: 0 <= i < |steps| ==> steps[i] != Table(Retry(setting.id))
    ensures NextAll(setting, start, steps).advances - start.advances <= 3 * Allowance(setting.limits) + 6
  {
    AdvancesArePaidFor(setting, start, steps);
  }

  // ------------------------------------------------------------------ the table underneath

  /** A handed-over failure is one action of the table. */
  lemma FailureIsAnAction(setting: Setting, db: Db, worker: Worker) returns (action: Action)
    ensures FailedTask(db, setting.id, worker) == TaskActions.Perform(setting.config, db, action)
  {
    if setting.id in db.tasks && db.tasks[setting.id].LeasedTo(worker) {
      if CanTransition(db.tasks[setting.id].state, Blocked) {
        action := WorkerTransition(worker, setting.id,
          LockedTransition(Blocked, leaseOwner := Some(worker), requiresManualIntervention := Some(true),
                           lease := ClearLease));
      } else {
        action := Release(worker, setting.id, Some("stage failed"), true);
      }
    } else {
      action := Elapse(0);
    }
  }

  predicate TargetsAdmitted(outcome: StageOutcome) {
    outcome.Advance? ==> outcome.to in OUTCOME_TARGETS
  }

  lemma PlansAdmitted(limits: Limits, task: Task, store: Store, input: StageInput)
    requires store.Prepared(limits.units)
    ensures TargetsAdmitted(StagePlan(limits, task, store, input).outcome)
  {
  }

  lemma OutcomeInputAdmitted(setting: Setting, worker: Worker, state: TaskState, outcome: StageOutcome, now: int)
    requires TargetsAdmitted(outcome) && OutcomeTransition(setting, worker, state, outcome, now).Some?
    ensures SchedulerInput(worker, OutcomeTransition(setting, worker, state, outcome, now).value)
  {
  }

  /** An accepted or refused transition, with the handed-over failure, is one action of the table. */
  lemma TransitionIsAnAction(setting: Setting, db: Db, worker: Worker, input: LockedTransition) returns (action: Action)
    requires SchedulerInput(worker, input)
    ensures TaskActions.Perform(setting.config, db, action) ==
      match Transitioned(db, setting.id, input)
      case Ok(after) => after
      case Err(LeaseOwnership) => db
      case Err(_) => FailedTask(db, setting.id, worker)
  {
    var result := Transitioned(db, setting.id, input);
    if result.Ok? {
      action := WorkerTransition(worker, setting.id, input);
    } else if result.error.LeaseOwnership? {
      action := Elapse(0);
    } else {
      action := FailureIsAnAction(setting, db, worker);
    }
  }

  /** Applying an outcome is one action of the table. */
  lemma OutcomeIsAnAction(setting: Setting, db: Db, worker: Worker, state: TaskState, outcome: StageOutcome)
    returns (action: Action)
    requires TargetsAdmitted(outcome)
    ensures OutcomeApplied(setting, db, worker, state, outcome) == TaskActions.Perform(setting.config, db, action)
  {
    var transition := OutcomeTransition(setting, worker, state, outcome, db.clock);
    if transition.Some? {
      OutcomeInputAdmitted(setting, worker, state, outcome, db.clock);
      action := TransitionIsAnAction(setting, db, worker, transition.value);
    } else if outcome.Wait? {
      action := Defer(worker, setting.id, outcome.until, None);
    } else if outcome.Threw? {
      action := FailureIsAnAction(setting, db, worker);
    } else {
      action := Elapse(0);
    }
  }

  lemma StepIsAnAction(setting: Setting, exec: Exec, step: Step) returns (action: Action)
    requires StoreKept(setting, exec)
    ensures Next(setting, exec, step).db == TaskActions.Perform(setting.config, exec.db, action)
  {
    action := Elapse(0);
    if Enabled(setting, exec, step) {
      if step.Table? {
        action := step.action;
      } else if step.Finish? {
        var running := exec.running.value;
        var input, woven :| PlanUnderway(setting, exec, input, woven);
        PlansAdmitted(setting.limits, running.task, running.base, input);
        action := OutcomeIsAnAction(setting, exec.db, running.worker, running.task.state, running.plan.outcome);
      }
    }
  }

  /** Every supervised run is a run of the task table, so what holds in every table run holds here too. */
  lemma {:induction false} RunsRefineTheTable(setting: Setting, start: Exec, steps: seq<Step>)
    returns (actions: seq<Action>)
    requires StoreKept(setting, start)
    ensures NextAll(setting, start, steps).db == PerformAll(setting.config, start.db, actions)
  {
    if |steps| == 0 {
      actions := [];
    } else {
      var shorter := steps[..|steps| - 1];
      var earlier := RunsRefineTheTable(setting, start, shorter);
      StoreInOrderInEveryRun(setting, start, shorter);
      var last := StepIsAnAction(setting, NextAll(setting, start, shorter), steps[|steps| - 1]);
      actions := earlier + [last];
      assert actions[..|actions| - 1] == earlier;
    }
  }

  // ------------------------------------------------------------------ the beginning

  lemma RunsBeginInOrder(setting: Setting, exec: Exec)
    requires DistinctUnits(setting.limits.units) && FreshStore(setting.limits, exec.store) && exec.running.None?
    requires Initial(exec.db) && setting.id in exec.db.tasks
    ensures ProgressKept(setting, exec)
  {
  }

  // ------------------------------------------------------------------ what a reader may conclude

  /** In every run every branch carries at most one implementation commit and at most one commit per fix request. */
  lemma OneCommitPerRequestInEveryRun(setting: Setting, start: Exec, steps: seq<Step>, unit: Repository)
    requires StoreKept(setting, start) && unit in NextAll(setting, start, steps).store.branches
    ensures OneCommitPerRequest(NextAll(setting, start, steps).store.branches[unit])
  {
    StoreInOrderInEveryRun(setting, start, steps);
  }

  /**
   A fix request never carries an identity that was requested or recorded as applied before, so no stale marker hides a
   fix.
   */
  lemma RequestsAreNewInEveryRun(setting: Setting, start: Exec, steps: seq<Step>, i: nat, j: nat)
    requires StoreKept(setting, start)
    requires var events := NextAll(setting, start, steps).store.events; i < j < |events| && events[j].FixRequested?
    ensures var events := NextAll(setting, start, steps).store.events;
      events[i] != FixRequested(events[j].id) && events[i] != FixRecorded(events[j].id)
  {
    StoreInOrderInEveryRun(setting, start, steps);
  }

  /**
   Before any push of a vector there was an approval of that vector, and before that approval one run of gates that
   passed on every repository's commit of that vector, each on a clean worktree.
   */
  lemma PushedVectorsWereVerifiedAndApproved(setting: Setting, start: Exec, steps: seq<Step>, k: nat)
    returns (gates: nat, approval: nat)
    requires StoreKept(setting, start)
    requires var events := NextAll(setting, start, steps).store.events; k < |events| && events[k].Pushed?
    ensures var events := NextAll(setting, start, steps).store.events;
      var units := setting.limits.units;
      && gates + |units| <= approval < k
      && events[approval] == ReviewRecorded(events[k].heads)
      && forall u :: 0 <= u < |units| ==>
           units[u] in events[k].heads && events[gates + u] == GateRun(units[u], events[k].heads[units[u]], true, true)
  {
    StoreInOrderInEveryRun(setting, start, steps);
    var events := NextAll(setting, start, steps).store.events;
    var units := setting.limits.units;
    assert Approved(events[..k], units, events[k].heads);
    var j: nat :| j < |events[..k]| && events[..k][j] == ReviewRecorded(events[k].heads)
      && Verified(events[..k][..j], units, events[k].heads);
    var i: nat :| VerifiedAt(events[..k][..j], i, units, events[k].heads);
    gates, approval := i, j;
    assert events[..k][..j] == events[..j];
    forall u | 0 <= u < |units|
      ensures units[u] in events[k].heads
      ensures events[gates + u] == GateRun(units[u], events[k].heads[units[u]], true, true)
    {
      assert events[..j][i + u] == GateRun(units[u], events[k].heads[units[u]], true, true);
    }
  }

  /**
   An approval is recorded only by a review that changed nothing, had no problem, and effectively approved these heads.
   */
  lemma ApprovalNeedsVerdict(limits: Limits, task: Task, store: Store, input: StageInput, i: nat)
    requires store.Prepared(limits.units) && i < |StagePlan(limits, task, store, input).effects|
    requires StagePlan(limits, task, store, input).effects[i].SaveReview?
    ensures task.state == Reviewing && input.ReviewInput?
    ensures StagePlan(limits, task, store, input).effects[i].heads == HeadsOf(store, limits.units)
    ensures store.checkpoints.qualityPassed == Some(HeadsOf(store, limits.units))
    ensures !input.wrote && !input.moved && input.result.AgentDone? && !input.problems
    ensures input.verdict == Approve && !input.blockingFinding
  {
    if task.state == Reviewing && input.ReviewInput? {
      ReviewRecordsVerdict(limits, task, store, input, i);
    } else if task.state == PrCreated && input.DeliveryInput? {
      if DeliveryRuns(limits, store, input) {
        DeliveryEffectsAreSteps(limits, store, HeadsOf(store, limits.units), input);
      }
    } else {
      OnlyReviewsAndDeliveries(limits, task, store, input);
    }
  }

  lemma ReviewRecordsVerdict(limits: Limits, task: Task, store: Store, input: StageInput, i: nat)
    requires store.Prepared(limits.units) && input.ReviewInput? && i < |ReviewPlan(limits, task, store, input).effects|
    requires ReviewPlan(limits, task, store, input).effects[i].SaveReview?
    ensures ReviewPlan(limits, task, store, input).effects[i].heads == HeadsOf(store, limits.units)
    ensures store.checkpoints.qualityPassed == Some(HeadsOf(store, limits.units))
    ensures !input.wrote && !input.moved && input.result.AgentDone? && !input.problems
    ensures input.verdict == Approve && !input.blockingFinding
  {
  }

  // ------------------------------------------------------------------ completion

  /** The work unit is recorded as merged into its base, as the pass saw it. */
  predicate UnitMergedAsSeen(limits: Limits, store: Store, unit: Commits.Repository, turn: Observation.Turn) {
    && unit in store.rows && store.rows[unit].state == Completed && store.rows[unit].mergeCommit.Some?
    && Observation.SeenMerged(PolicyOf(limits, unit), turn, store.rows[unit].mergeCommit.value)
  }

  /** A whole pass, from human review, that saw every pull request merged and recorded every work unit so. */
  ghost predicate MergedPass(setting: Setting, exec: Exec, input: StageInput) {
    && exec.running.Some? && exec.running.value.task.state == ReadyForHumanReview && input.ObservationInput?
    && PlanOf(setting, exec.running.value, input)
    && forall i :: 0 <= i < |setting.limits.units| ==>
         UnitMergedAsSeen(setting.limits, exec.store, setting.limits.units[i], Observation.TurnAt(input.turns, i))
  }

  lemma RecordsReach(limits: Limits, store: Store, effects: seq<Effect>, units: seq<Commits.Repository>)
    requires |effects| <= |units| && DistinctUnits(units)
    requires forall i :: 0 <= i < |effects| ==> effects[i].RecordUnit? && effects[i].repository == units[i]
    ensures forall i :: 0 <= i < |effects| ==>
      units[i] in ApplyAll(store, effects).rows && ApplyAll(store, effects).rows[units[i]] == effects[i].row
  {
    if |effects| > 0 {
      RecordsReach(limits, store, effects[..|effects| - 1], units);
    }
  }

  /** Only a whole pass that saw everything merged completes a task. */
  lemma OnlyMergesComplete(limits: Limits, task: Task, store: Store, input: StageInput)
    requires store.Prepared(limits.units)
    requires StagePlan(limits, task, store, input).outcome.Advance?
    requires StagePlan(limits, task, store, input).outcome.to == Completed
    ensures task.state == ReadyForHumanReview && input.ObservationInput? && input.matches
    ensures StagePlan(limits, task, store, input) == ObservationPlan(limits, task, store, input)
    ensures Observation.StopsAt(input.turns, 0, |limits.units|) == |limits.units|
    ensures PassEnding(limits, task, store, input) == Observation.MergedEverywhere
    ensures Observation.AllMerged(Deliveries(limits, store, input.turns, |limits.units|))
  {
  }

  lemma UnitRecorded(limits: Limits, store: Store, unit: Commits.Repository, turn: Observation.Turn)
    requires unit in store.rows && turn.Seen? && Observed(limits, store, unit, turn).UnitMerged?
    ensures var row := RecordEffect(limits, store, unit, turn).row;
      row.state == Completed && row.mergeCommit.Some?
      && Observation.SeenMerged(PolicyOf(limits, unit), turn, row.mergeCommit.value)
  {
  }

  /** Such a pass has recorded every unit by the time it ends, whatever else happened to the branches. */
  lemma MergesAreRecorded(limits: Limits, task: Task, store: Store, input: StageInput, now: Store)
    requires store.Prepared(limits.units) && DistinctUnits(limits.units)
    requires StagePlan(limits, task, store, input).outcome.Advance?
    requires StagePlan(limits, task, store, input).outcome.to == Completed
    requires Follows(ApplyAll(store, StagePlan(limits, task, store, input).effects), now)
    ensures task.state == ReadyForHumanReview && input.ObservationInput?
    ensures forall i :: 0 <= i < |limits.units| ==>
      UnitMergedAsSeen(limits, now, limits.units[i], Observation.TurnAt(input.turns, i))
  {
    hide StagePlan, ApplyAll, PassEnding, Observation.Observe;
    OnlyMergesComplete(limits, task, store, input);
    var units := limits.units;
    var records := RecordEffects(limits, store, input.turns, |units|);
    var conclusion := ConclusionEffects(limits, task, store, input);
    RecordsReach(limits, store, records, units);
    ApplyJoined(store, records, conclusion);
    ConclusionKeepsRows(limits, task, store, input, ApplyAll(store, records));
    forall i | 0 <= i < |units| ensures UnitMergedAsSeen(limits, now, units[i], Observation.TurnAt(input.turns, i)) {
      assert Deliveries(limits, store, input.turns, |units|)[i].UnitMerged?;
      UnitRecorded(limits, store, units[i], Observation.TurnAt(input.turns, i));
    }
  }

  lemma ConclusionKeepsRows(limits: Limits, task: Task, store: Store, input: StageInput, now: Store)
    requires store.Prepared(limits.units) && input.ObservationInput?
    ensures ApplyAll(now, ConclusionEffects(limits, task, store, input)).rows == now.rows
  {
    hide PassEnding, ApplyAll, NextAttempt;
    AttemptKeepsRows(now, task.state, NextAttempt(store.AttemptsOf(task.state)));
  }

  lemma AttemptKeepsRows(now: Store, stage: TaskState, attempt: nat)
    ensures ApplyAll(now, [StartAttempt(stage), CompleteAttempt(stage, attempt)]).rows == now.rows
    ensures ApplyAll(now, []) == now
  {
    hide NextAttempt;
    ApplyNext(now, [], StartAttempt(stage));
    ApplyNext(now, [StartAttempt(stage)], CompleteAttempt(stage, attempt));
    assert [] + [StartAttempt(stage)] == [StartAttempt(stage)];
    assert [StartAttempt(stage)] + [CompleteAttempt(stage, attempt)]
        == [StartAttempt(stage), CompleteAttempt(stage, attempt)];
  }

  lemma ClaimCompletesNothing(setting: Setting, db: Db, action: Action)
    requires setting.id in db.tasks && db.tasks[setting.id].state != Completed && action.Claim?
    ensures var after := TaskActions.Perform(setting.config, db, action);
      setting.id in after.tasks && after.tasks[setting.id].state != Completed
  {
    hide Selects, ClaimInputNow, GrantedLease;
  }

  lemma HolderCompletesNothing(setting: Setting, exec: Exec, action: Action)
    requires setting.id in exec.db.tasks && exec.db.tasks[setting.id].state != Completed
    requires TableEnabled(setting, exec, action)
    requires action.WorkerTransition? || action.Heartbeat? || action.Release? || action.Defer?
    ensures var after := TaskActions.Perform(setting.config, exec.db, action);
      setting.id in after.tasks && after.tasks[setting.id].state != Completed
  {
  }

  lemma OthersCompleteNothing(setting: Setting, db: Db, action: Action)
    requires setting.id in db.tasks && db.tasks[setting.id].state != Completed
    requires action.Create? || action.Recover? || action.Retry? || action.Cancel? || action.RequireManual?
            || action.Elapse?
    ensures var after := TaskActions.Perform(setting.config, db, action);
      setting.id in after.tasks && after.tasks[setting.id].state != Completed
  {
  }

  lemma TableCompletesNothing(setting: Setting, exec: Exec, action: Action)
    requires setting.id in exec.db.tasks && exec.db.tasks[setting.id].state != Completed
    requires TableEnabled(setting, exec, action)
    ensures var after := TaskActions.Perform(setting.config, exec.db, action);
      setting.id in after.tasks && after.tasks[setting.id].state != Completed
  {
    hide TaskActions.Perform, TableEnabled;
    if action.Claim? {
      ClaimCompletesNothing(setting, exec.db, action);
    } else if action.WorkerTransition? || action.Heartbeat? || action.Release? || action.Defer? {
      HolderCompletesNothing(setting, exec, action);
    } else {
      OthersCompleteNothing(setting, exec.db, action);
    }
  }

  lemma OutcomeCompletes(setting: Setting, db: Db, worker: Worker, state: TaskState, outcome: StageOutcome)
    requires setting.id in db.tasks && db.tasks[setting.id].state != Completed
    requires var after := OutcomeApplied(setting, db, worker, state, outcome);
      setting.id in after.tasks && after.tasks[setting.id].state == Completed
    ensures outcome.Advance? && outcome.to == Completed
  {
  }

  /** A step that completes the task is the end of a pass that saw every pull request merged and recorded it. */
  lemma CompletionNeedsEveryMerge(setting: Setting, exec: Exec, step: Step) returns (input: StageInput)
    requires StoreKept(setting, exec) && setting.id in exec.db.tasks && exec.db.tasks[setting.id].state != Completed
    requires var after := Next(setting, exec, step).db;
      setting.id in after.tasks && after.tasks[setting.id].state == Completed
    ensures step == Finish && MergedPass(setting, exec, input)
  {
    hide StoreOk, StagePlan, ApplyAll, Own, OutcomeApplied, TaskActions.Perform, Follows;
    if step.Table? && Enabled(setting, exec, step) {
      TableCompletesNothing(setting, exec, step.action);
    }
    assert step == Finish && Enabled(setting, exec, Finish);
    var running := exec.running.value;
    var woven;
    input, woven :| PlanUnderway(setting, exec, input, woven);
    OutcomeCompletes(setting, exec.db, running.worker, running.task.state, running.plan.outcome);
    assert running.plan.effects[..running.done] == running.plan.effects;
    StoreIsPrepared(setting.limits, running.base);
    StageCrashSafe(setting.limits, running.task, running.base, input, woven);
    MergesAreRecorded(setting.limits, running.task, running.base, input, exec.store);
  }

  /** Every work unit is recorded as merged. */
  predicate AllUnitsMerged(limits: Limits, store: Store) {
    forall i :: 0 <= i < |limits.units| ==>
      && limits.units[i] in store.rows && store.rows[limits.units[i]].state == Completed
      && store.rows[limits.units[i]].mergeCommit.Some?
  }

  /** The task is completed, no handler runs, and nothing of the record changes any more. */
  predicate CompletedWhole(setting: Setting, exec: Exec) {
    setting.id in exec.db.tasks && exec.db.tasks[setting.id].state == Completed ==>
      exec.running.None? && AllUnitsMerged(setting.limits, exec.store)
  }

  lemma CompletedWholeStep(setting: Setting, exec: Exec, step: Step)
    requires StoreKept(setting, exec) && setting.id in exec.db.tasks && CompletedWhole(setting, exec)
    ensures setting.id in Next(setting, exec, step).db.tasks
    ensures CompletedWhole(setting, Next(setting, exec, step))
  {
    hide StoreOk, StagePlan, OutcomeApplied, TaskActions.Perform, MergedPass;
    var after := Next(setting, exec, step);
    var action := StepIsAnAction(setting, exec, step);
    TaskRuns.PerformShape(setting.config, exec.db, action);
    if exec.db.tasks[setting.id].state != Completed && after.db.tasks[setting.id].state == Completed {
      var input := CompletionNeedsEveryMerge(setting, exec, step);
      MergedPassMergesAll(setting, exec, input);
    }
  }

  lemma MergedPassMergesAll(setting: Setting, exec: Exec, input: StageInput)
    requires MergedPass(setting, exec, input)
    ensures AllUnitsMerged(setting.limits, exec.store)
  {
    forall i | 0 <= i < |setting.limits.units|
      ensures setting.limits.units[i] in exec.store.rows
      ensures exec.store.rows[setting.limits.units[i]].state == Completed
      ensures exec.store.rows[setting.limits.units[i]].mergeCommit.Some?
    {
      assert UnitMergedAsSeen(setting.limits, exec.store, setting.limits.units[i], Observation.TurnAt(input.turns, i));
    }
  }

  /** In every run a completed task has every work unit recorded as merged with its merge commit. */
  lemma {:induction false} CompletedTasksAreMerged(setting: Setting, start: Exec, steps: seq<Step>)
    requires StoreKept(setting, start) && setting.id in start.db.tasks && CompletedWhole(setting, start)
    ensures setting.id in NextAll(setting, start, steps).db.tasks
    ensures CompletedWhole(setting, NextAll(setting, start, steps))
  {
    hide CompletedWhole, StoreKept;
    if |steps| > 0 {
      var shorter := steps[..|steps| - 1];
      CompletedTasksAreMerged(setting, start, shorter);
      StoreInOrderInEveryRun(setting, start, shorter);
      CompletedWholeStep(setting, NextAll(setting, start, shorter), steps[|steps| - 1]);
    }
  }
}
