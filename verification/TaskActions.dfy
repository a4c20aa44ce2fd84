/**
 Everything that can happen to the task table, as atomic actions of any number of workers, recovery passes and an
 operator. A run is a sequence of actions; an action that the repository refuses changes nothing.
 */
module TaskActions {
  import opened Wrappers
  import opened Domain
  import opened Tasks
  import StageGate
  import OperatingHours

  datatype Config = Config(
    executionLimit: nat,
    deliveryLimit: nat,
    repositoryLimits: map<Repository, nat>,
    rollout: Rollout,
    leaseDurationMs: int,
    schedule: OperatingHours.Schedule)

  function LaneLimit(config: Config, lane: ClaimLane): nat {
    match lane case ExecutionLane => config.executionLimit case DeliveryLane => config.deliveryLimit
  }

  /** States a stage handler may advance a task to. */
  const OUTCOME_TARGETS: set<TaskState> :=
    {Ready, Implementing, Testing, Fixing, Reviewing, PrCreated, WaitingCi, ReadyForHumanReview, Completed, Blocked,
     Failed}

  /** The shape of every transition a scheduler asks for while it runs a task. */
  predicate SchedulerInput(worker: Worker, input: LockedTransition) {
    && input.leaseOwner == Some(worker)
    && !input.allowExpiredLease && !input.clearCancelRequest && !input.resetAttemptCounters
    && input.requiresManualIntervention != Some(false)
    && match input.lease {
         case KeepLease => input.to in OUTCOME_TARGETS && input.resumeState.None?
         case ClearLease =>
           input.to in {Cancelled, Blocked, PausedSchedule, PausedLimit}
           && (input.resumeState.Some? <==> IsPause(input.to))
         case GrantLease(_) => false
       }
  }

  datatype Scope = Expired | Owned(worker: Worker)

  datatype Action =
    | Create(id: TaskId, repositories: set<Repository>, blockers: set<TaskId>)
    | Claim(worker: Worker, lane: ClaimLane, handlers: set<TaskState>, override: StageGate.ScheduleOverride,
            locked: set<TaskId>, chosen: TaskId)
    | WorkerTransition(worker: Worker, id: TaskId, input: LockedTransition)
    | Heartbeat(worker: Worker, id: TaskId)
    | Release(worker: Worker, id: TaskId, lastError: Option<string>, manual: bool)
    | Defer(worker: Worker, id: TaskId, until: int, deferError: Option<Option<string>>)
    | Recover(scope: Scope, id: TaskId, reason: string)
    | Retry(id: TaskId)
    | Cancel(id: TaskId)
    | RequireManual(id: TaskId, note: string)
    | Elapse(ms: nat)

  /** The work a worker offers to claim: what its handlers, the schedule and the override permit now. */
  function WorkNow(config: Config, handlers: set<TaskState>, override: StageGate.ScheduleOverride,
                   now: int): ClaimableWork {
    var permitted := set state | state in handlers && StageGate.StagePermitted(config.schedule, state, override, now);
    ClaimableWork(
      Analyzing in permitted
        && StageGate.OperationGate(config.schedule, OperatingHours.TaskDiscovery, override, now).permitted,
      permitted,
      set state | state in permitted && state in TransitionMap(PausedSchedule),
      set state | state in permitted && state in TransitionMap(PausedLimit))
  }

  function ClaimInputNow(config: Config, db: Db, worker: Worker, lane: ClaimLane, handlers: set<TaskState>,
                         override: StageGate.ScheduleOverride): ClaimInput {
    ClaimInput(worker, config.leaseDurationMs, db.clock, WorkNow(config, handlers, override, db.clock),
      Some(LaneLimit(config, lane)), lane, config.repositoryLimits, config.rollout)
  }

  function NewTask(now: int, repositories: set<Repository>, blockers: set<TaskId>): Task {
    Task(Queued, None, None, None, None, None, false, None, None, 0, 0, 0, now, repositories, blockers)
  }

  function Settled(db: Db, result: Result<Db, TaskError>): Db {
    if result.Ok? then result.value else db
  }

  /** A claim takes effect when it selects a row that its transaction may take. */
  predicate ClaimsRow(config: Config, db: Db, action: Action)
    requires action.Claim?
  {
    && config.leaseDurationMs > 0
    && Selects(db, ClaimInputNow(config, db, action.worker, action.lane, action.handlers, action.override),
               action.locked, action.chosen)
    && Claimed(db, ClaimInputNow(config, db, action.worker, action.lane, action.handlers, action.override),
               action.chosen).Ok?
  }

  function Perform(config: Config, db: Db, action: Action): Db {
    match action
    case Create(id, repositories, blockers) =>
      if id in db.tasks || !(blockers <= db.tasks.Keys) then db
      else db.(tasks := db.tasks[id := NewTask(db.clock, repositories, blockers)])
    case Claim(worker, lane, handlers, override, locked, chosen) =>
      if !ClaimsRow(config, db, action) then db
      else Claimed(db, ClaimInputNow(config, db, worker, lane, handlers, override), chosen).value
    case WorkerTransition(worker, id, input) =>
      if SchedulerInput(worker, input) then Settled(db, Transitioned(db, id, input)) else db
    case Heartbeat(worker, id) => Settled(db, HeartbeatSent(db, id, worker, config.leaseDurationMs, db.clock))
    case Release(worker, id, lastError, manual) =>
      Settled(db, Released(db, id, worker, lastError, if manual then Some(true) else None))
    case Defer(worker, id, until, lastError) => Settled(db, Deferred(db, id, worker, until, lastError))
    case Recover(scope, id, reason) =>
      var recovery := match scope case Expired => ExpiredBefore(db.clock) case Owned(worker) => OwnedBy(worker);
      if id in db.tasks && Recoverable(db.tasks[id], recovery) then Settled(db, RecoveredRow(db, id, reason)) else db
    case Retry(id) => Settled(db, Retried(db, id))
    case Cancel(id) => Settled(db, CancelRequested(db, id))
    case RequireManual(id, note) => Settled(db, ManualRequired(db, id, note))
    case Elapse(ms) => db.(clock := db.clock + ms)
  }

  /** The table after a whole run of actions. */
  function PerformAll(config: Config, db: Db, actions: seq<Action>): Db {
    if |actions| == 0 then db
    else Perform(config, PerformAll(config, db, actions[..|actions| - 1]), actions[|actions| - 1])
  }

  /** A run starts from queued, unleased tasks whose blockers all exist. */
  predicate Initial(db: Db) {
    && db.log == []
    && forall id :: id in db.tasks ==>
         && db.tasks[id] == NewTask(db.tasks[id].createdAt, db.tasks[id].repositories, db.tasks[id].blockers)
         && db.tasks[id].blockers <= db.tasks.Keys
  }

  function Target(action: Action): Option<TaskId> {
    match action
    case Create(id, _, _) => Some(id)
    case Claim(_, _, _, _, _, chosen) => Some(chosen)
    case WorkerTransition(_, id, _) => Some(id)
    case Heartbeat(_, id) => Some(id)
    case Release(_, id, _, _) => Some(id)
    case Defer(_, id, _, _) => Some(id)
    case Recover(_, id, _) => Some(id)
    case Retry(id) => Some(id)
    case Cancel(id) => Some(id)
    case RequireManual(id, _) => Some(id)
    case Elapse(_) => None
  }
}
