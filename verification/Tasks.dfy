/**
 The task table: rows, transition history, and what each repository operation does to them.
 Every function here describes one database transaction as a whole. Times are milliseconds on one shared clock.
 */
module Tasks {
  import opened Wrappers
  import opened Domain

  type TaskId = string
  type Worker = string
  type Repository = string

  const DAY_MS := 24 * 60 * 60 * 1000

  /** The three lease columns of a row, which are always set and cleared together. */
  datatype Lease = Lease(owner: Worker, expiresAt: int, heartbeatAt: int)

  datatype Task = Task(
    state: TaskState,
    resumeState: Option<TaskState>,
    pauseReason: Option<PauseReason>,
    pausedAt: Option<int>,
    resumeAfter: Option<int>,
    lease: Option<Lease>,
    requiresManualIntervention: bool,
    cancelRequestedAt: Option<int>,
    lastError: Option<string>,
    implementationAttempts: nat,
    qualityFixAttempts: nat,
    reviewAttempts: nat,
    createdAt: int,
    repositories: set<Repository>,
    blockers: set<TaskId>)
  {
    predicate LeasedTo(worker: Worker) {
      lease.Some? && lease.value.owner == worker
    }
  }

  /** One row of the transition history. */
  datatype Transition = Transition(taskId: TaskId, from: TaskState, to: TaskState, createdAt: int)

  datatype Db = Db(tasks: map<TaskId, Task>, log: seq<Transition>, clock: int)

  datatype TaskError =
    | LeaseOwnership | InvalidTransition | MissingResumeState | CannotResume | TaskNotFound | BadArgument | Conflict

  /** What a transition does to the lease columns: leave them, clear them, or grant a lease. */
  datatype LeasePatch = KeepLease | ClearLease | GrantLease(lease: Lease)

  datatype LockedTransition = LockedTransition(
    to: TaskState,
    resumeState: Option<TaskState> := None,
    pauseReason: Option<PauseReason> := None,
    resumeAfter: Option<int> := None,
    leaseOwner: Option<Worker> := None,
    allowExpiredLease: bool := false,
    requiresManualIntervention: Option<bool> := None,
    lastError: Option<Option<string>> := None,
    clearCancelRequest: bool := false,
    increment: Option<AttemptCounter> := None,
    resetAttemptCounters: bool := false,
    lease: LeasePatch := KeepLease)

  /** The state machine's verdict on one transition. */
  function CheckTransition(from: TaskState, to: TaskState, resumeState: Option<TaskState>): (error: Option<TaskError>) {
    if !CanTransition(from, to) then Some(InvalidTransition)
    else if IsPause(to) && resumeState.None? then Some(MissingResumeState)
    else if IsPause(to) && !CanTransition(to, resumeState.value) then Some(CannotResume)
    else None
  }

  function GetOr<T>(option: Option<T>, default: T): T {
    if option.Some? then option.value else default
  }

  function PatchedLease(lease: Option<Lease>, patch: LeasePatch): Option<Lease> {
    match patch
    case KeepLease => lease
    case ClearLease => None
    case GrantLease(granted) => Some(granted)
  }

  /**
   A counter after a transition. An increment reads the stored counter while a reset writes zero; no caller asks for
   both.
   */
  function Counted(stored: nat, counter: AttemptCounter, input: LockedTransition): nat {
    if input.increment == Some(counter) then stored + 1
    else if input.resetAttemptCounters then 0
    else stored
  }

  /**
   The row after a validated transition, or the error that leaves it alone. The second ownership guard is skipped when
   the caller passes a lease patch, so a former owner's releasing transition is accepted on an unleased row.
   */
  function TransitionRow(task: Task, input: LockedTransition, now: int): Result<Task, TaskError> {
    if task.lease.Some? && input.leaseOwner != Some(task.lease.value.owner) && !input.allowExpiredLease then
      Err(LeaseOwnership)
    else if input.leaseOwner.Some? && !task.LeasedTo(input.leaseOwner.value) && input.lease.KeepLease? then
      Err(LeaseOwnership)
    else
      var error := CheckTransition(task.state, input.to, input.resumeState);
      if error.Some? then Err(error.value)
      else
        var paused := IsPause(input.to);
        Ok(task.(
          state := input.to,
          resumeState := input.resumeState,
          pauseReason := input.pauseReason,
          pausedAt := if paused then Some(now) else None,
          resumeAfter := if paused then input.resumeAfter else None,
          requiresManualIntervention := GetOr(input.requiresManualIntervention, task.requiresManualIntervention),
          lastError := GetOr(input.lastError, task.lastError),
          cancelRequestedAt := if input.clearCancelRequest then None else task.cancelRequestedAt,
          implementationAttempts := Counted(task.implementationAttempts, ImplementationAttempts, input),
          qualityFixAttempts := Counted(task.qualityFixAttempts, QualityFixAttempts, input),
          reviewAttempts := Counted(task.reviewAttempts, ReviewAttempts, input),
          lease := PatchedLease(task.lease, input.lease)))
  }

  /** Applies one transition to a locked row and appends its history record. */
  function Transitioned(db: Db, id: TaskId, input: LockedTransition): Result<Db, TaskError> {
    if id !in db.tasks then Err(TaskNotFound)
    else
      match TransitionRow(db.tasks[id], input, db.clock)
      case Err(error) => Err(error)
      case Ok(row) =>
        Ok(Db(db.tasks[id := row], db.log + [Transition(id, db.tasks[id].state, input.to, db.clock)], db.clock))
  }

  /** Replaces one row without a transition, when `worker` holds its lease. */
  function OwnedUpdate(db: Db, id: TaskId, worker: Worker, update: Task -> Task): Result<Db, TaskError> {
    if id in db.tasks && db.tasks[id].LeasedTo(worker) then Ok(db.(tasks := db.tasks[id := update(db.tasks[id])]))
    else Err(LeaseOwnership)
  }

  function Released(db: Db, id: TaskId, worker: Worker, lastError: Option<string>,
                    manual: Option<bool>): Result<Db, TaskError> {
    OwnedUpdate(db, id, worker, (task: Task) => task.(
      lease := None,
      lastError := if lastError.Some? then lastError else task.lastError,
      requiresManualIntervention := GetOr(manual, task.requiresManualIntervention)))
  }

  function Deferred(db: Db, id: TaskId, worker: Worker, until: int,
                    lastError: Option<Option<string>>): Result<Db, TaskError> {
    OwnedUpdate(db, id, worker, (task: Task) => task.(
      lease := None,
      resumeAfter := Some(until),
      lastError := GetOr(lastError, task.lastError)))
  }

  function HeartbeatSent(db: Db, id: TaskId, worker: Worker, leaseDurationMs: int, now: int): Result<Db, TaskError> {
    if leaseDurationMs <= 0 then Err(BadArgument)
    else OwnedUpdate(db, id, worker, (task: Task) => task.(lease := Some(Lease(worker, now + leaseDurationMs, now))))
  }

  /** Which leases a recovery pass looks for. */
  datatype RecoveryScope = ExpiredBefore(now: int) | OwnedBy(worker: Worker)

  /** Rows a recovery pass selects; blocked and terminal rows are skipped even when their lease has expired. */
  predicate Recoverable(task: Task, scope: RecoveryScope) {
    && task.lease.Some?
    && (match scope
        case ExpiredBefore(now) => task.lease.value.expiresAt < now
        case OwnedBy(worker) => task.LeasedTo(worker))
    && task.state !in {Blocked, Completed, Cancelled}
  }

  function RecoveryTransition(): LockedTransition {
    LockedTransition(Blocked, allowExpiredLease := true, requiresManualIntervention := Some(true), lease := ClearLease)
  }

  /** Recovers one selected row: blocked for an operator, or only flagged when its state could not be blocked. */
  function RecoveredRow(db: Db, id: TaskId, reason: string): Result<Db, TaskError> {
    if id !in db.tasks then Err(TaskNotFound)
    else if CanTransition(db.tasks[id].state, Blocked) then Transitioned(db, id, RecoveryTransition())
    else
      Ok(db.(tasks := db.tasks[id := db.tasks[id].(
        lease := None, requiresManualIntervention := true, lastError := Some(reason))]))
  }

  // ------------------------------------------------------------------ operator

  function Retried(db: Db, id: TaskId): Result<Db, TaskError> {
    if id !in db.tasks then Err(TaskNotFound)
    else if db.tasks[id].lease.Some? || !CanTransition(db.tasks[id].state, Queued) then Err(Conflict)
    else Transitioned(db, id, LockedTransition(Queued,
      requiresManualIntervention := Some(false), lastError := Some(None), clearCancelRequest := true,
      resetAttemptCounters := db.tasks[id].state == Failed))
  }

  function CancelRequested(db: Db, id: TaskId): Result<Db, TaskError> {
    if id !in db.tasks then Err(TaskNotFound)
    else if !CanTransition(db.tasks[id].state, Cancelled) then Err(Conflict)
    else if db.tasks[id].lease.Some? then
      Ok(db.(tasks := db.tasks[id := db.tasks[id].(
        cancelRequestedAt := Some(GetOr(db.tasks[id].cancelRequestedAt, db.clock)))]))
    else Transitioned(db, id, LockedTransition(Cancelled))
  }

  function ManualRequired(db: Db, id: TaskId, note: string): Result<Db, TaskError> {
    if id !in db.tasks then Err(TaskNotFound)
    else if db.tasks[id].state in TERMINAL_STATES then Err(Conflict)
    else if db.tasks[id].lease.None? && CanTransition(db.tasks[id].state, Blocked) then
      Transitioned(db, id,
                   LockedTransition(Blocked, requiresManualIntervention := Some(true), lastError := Some(Some(note))))
    else
      Ok(db.(tasks := db.tasks[id := db.tasks[id].(requiresManualIntervention := true, lastError := Some(note))]))
  }

  // ------------------------------------------------------------------ claims

  datatype ClaimableWork = ClaimableWork(
    queued: bool,
    parkedStates: set<TaskState>,
    scheduleResumeStates: set<TaskState>,
    limitResumeStates: set<TaskState>)

  datatype Rollout = Rollout(repositories: Option<set<Repository>>, maxNewTasksPerDay: Option<int>)

  datatype ClaimInput = ClaimInput(
    worker: Worker,
    leaseDurationMs: int,
    now: int,
    work: ClaimableWork,
    /** None is no limit. */
    maxConcurrentTasks: Option<int>,
    lane: ClaimLane,
    repositoryLimits: map<Repository, int>,
    rollout: Rollout)

  /** The part of the offered work that belongs to the claimed lane. */
  function LaneWork(input: ClaimInput): ClaimableWork {
    var execution := input.lane.ExecutionLane?;
    ClaimableWork(
      execution && input.work.queued,
      set state | state in input.work.parkedStates && ClaimLaneOf(state) == input.lane,
      if execution then input.work.scheduleResumeStates else {},
      if execution then input.work.limitResumeStates else {})
  }

  /** Leased tasks whose current state lies in `lane`, including leases that expired but are not yet recovered. */
  function LeasedIn(db: Db, lane: ClaimLane): set<TaskId> {
    set id | id in db.tasks && db.tasks[id].lease.Some? && ClaimLaneOf(db.tasks[id].state) == lane
  }

  function LeasedTouching(db: Db, lane: ClaimLane, repository: Repository): set<TaskId> {
    set id | id in LeasedIn(db, lane) && repository in db.tasks[id].repositories
  }

  predicate HasCapacity(db: Db, input: ClaimInput) {
    input.maxConcurrentTasks.Some? ==> |LeasedIn(db, input.lane)| < input.maxConcurrentTasks.value
  }

  predicate TouchesSaturated(db: Db, input: ClaimInput, id: TaskId)
    requires id in db.tasks
  {
    && input.lane.ExecutionLane?
    && exists repository ::
         && repository in db.tasks[id].repositories
         && repository in input.repositoryLimits
         && |LeasedTouching(db, input.lane, repository)| >= input.repositoryLimits[repository]
  }

  predicate IsStart(entry: Transition) {
    entry.from == Queued && entry.to == Analyzing
  }

  /** Recorded task starts strictly after `since`. */
  function StartsSince(log: seq<Transition>, since: int): nat {
    if |log| == 0 then 0
    else
      var last := log[|log| - 1];
      StartsSince(log[..|log| - 1], since) + if IsStart(last) && last.createdAt > since then 1 else 0
  }

  predicate MayStart(db: Db, input: ClaimInput) {
    && LaneWork(input).queued
    && (input.rollout.maxNewTasksPerDay.Some? ==>
          StartsSince(db.log, input.now - DAY_MS) < input.rollout.maxNewTasksPerDay.value)
  }

  predicate BlockersCompleted(db: Db, task: Task) {
    forall blocker :: blocker in task.blockers && blocker in db.tasks ==> db.tasks[blocker].state == Completed
  }

  predicate Due(task: Task, now: int) {
    task.resumeAfter.Some? ==> task.resumeAfter.value <= now
  }

  predicate Eligible(db: Db, input: ClaimInput, task: Task) {
    var work := LaneWork(input);
    || (MayStart(db, input) && task.state == Queued && BlockersCompleted(db, task)
        && (input.rollout.repositories.Some? ==> task.repositories <= input.rollout.repositories.value))
    || (task.state in work.parkedStates && Due(task, input.now))
    || (task.state == PausedSchedule && task.resumeState.Some? && task.resumeState.value in work.scheduleResumeStates)
    || (task.state == PausedLimit && task.resumeState.Some? && task.resumeState.value in work.limitResumeStates
        && Due(task, input.now))
  }

  predicate Candidate(db: Db, input: ClaimInput, id: TaskId) {
    && id in db.tasks
    && db.tasks[id].lease.None?
    && !TouchesSaturated(db, input, id)
    && !db.tasks[id].requiresManualIntervention
    && db.tasks[id].cancelRequestedAt.None?
    && Eligible(db, input, db.tasks[id])
  }

  /** In-progress work first, then paused work, then new tasks. */
  function ClaimPriority(state: TaskState): nat {
    if state == Queued then 2 else if IsPause(state) then 1 else 0
  }

  predicate ClaimedBefore(left: Task, right: Task) {
    || ClaimPriority(left.state) < ClaimPriority(right.state)
    || (ClaimPriority(left.state) == ClaimPriority(right.state) && left.createdAt < right.createdAt)
  }

  /** `id` is a first candidate among the rows no other transaction holds locked. */
  predicate Selects(db: Db, input: ClaimInput, locked: set<TaskId>, id: TaskId) {
    && HasCapacity(db, input)
    && id !in locked
    && Candidate(db, input, id)
    && forall other :: other in db.tasks && other !in locked && Candidate(db, input, other)
         ==> !ClaimedBefore(db.tasks[other], db.tasks[id])
  }

  function GrantedLease(input: ClaimInput): Lease {
    Lease(input.worker, input.now + input.leaseDurationMs, input.now)
  }

  /** What a claim does to the selected row. */
  function Claimed(db: Db, input: ClaimInput, id: TaskId): Result<Db, TaskError>
    requires id in db.tasks
  {
    var task := db.tasks[id];
    if task.state == Queued then
      Transitioned(db, id, LockedTransition(Analyzing, lease := GrantLease(GrantedLease(input))))
    else if IsPause(task.state) && task.resumeState.Some? then
      Transitioned(db, id, LockedTransition(task.resumeState.value, lease := GrantLease(GrantedLease(input))))
    else Ok(db.(tasks := db.tasks[id := task.(lease := Some(GrantedLease(input)))]))
  }
}
