/**
 What claims, recoveries, heartbeats and retries mean for a task, in terms of the columns of its row: which rows can be
 claimed at all, which of them comes first, and when a holder can lose its row.
 */
module ClaimLaws {
  import opened Wrappers
  import opened Domain
  import opened Tasks
  import opened TaskActions
  import opened TaskRuns
  import StageGate
  import OperatingHours

  // ------------------------------------------------------------------ which rows can be claimed

  /** A claim may start new tasks now: in its lane, in the schedule, and with budget left for the last 24 hours. */
  predicate MayStartNow(config: Config, db: Db, action: Action)
    requires action.Claim?
  {
    && action.lane.ExecutionLane? && Permitted(config, db, action, Analyzing)
    && StageGate.OperationGate(config.schedule, OperatingHours.TaskDiscovery, action.override, db.clock).permitted
    && (config.rollout.maxNewTasksPerDay.Some? ==>
          StartsSince(db.log, db.clock - 24 * 3600 * 1000) < config.rollout.maxNewTasksPerDay.value)
  }

  /** The claiming worker has a handler for the state and the schedule lets it start. */
  predicate Permitted(config: Config, db: Db, action: Action, state: TaskState)
    requires action.Claim?
  {
    state in action.handlers && StageGate.StagePermitted(config.schedule, state, action.override, db.clock)
  }

  /** A repository of the task has as many execution tasks as it may. */
  predicate AtItsLimit(config: Config, db: Db, task: Task) {
    exists repository ::
      && repository in task.repositories && repository in config.repositoryLimits
      && |LeasedTouching(db, ExecutionLane, repository)| >= config.repositoryLimits[repository]
  }

  /** Its time has come, or it has none. */
  predicate IsDue(task: Task, now: int) {
    task.resumeAfter.None? || task.resumeAfter.value <= now
  }

  /**
   What the task waits for has happened: for new tasks their blockers, for parked and limited tasks their time, for
   paused tasks the schedule of the state they resume in.
   */
  predicate WaitIsOver(config: Config, db: Db, action: Action, task: Task)
    requires action.Claim?
  {
    match task.state
    case Queued =>
      && MayStartNow(config, db, action)
      && (forall blocker :: blocker in task.blockers && blocker in db.tasks ==> db.tasks[blocker].state == Completed)
      && (config.rollout.repositories.Some? ==> task.repositories <= config.rollout.repositories.value)
    case PausedSchedule =>
      && action.lane.ExecutionLane? && task.resumeState.Some?
      && task.resumeState.value in {Analyzing, Ready, Implementing, Testing, Fixing, Reviewing}
      && Permitted(config, db, action, task.resumeState.value)
    case PausedLimit =>
      && action.lane.ExecutionLane? && task.resumeState.Some?
      && task.resumeState.value in {Analyzing, Implementing, Fixing, Reviewing}
      && Permitted(config, db, action, task.resumeState.value) && IsDue(task, db.clock)
    case state =>
      && (state in {PrCreated, WaitingCi, ReadyForHumanReview} <==> action.lane.DeliveryLane?)
      && Permitted(config, db, action, state) && IsDue(task, db.clock)
  }

  /** The row is free, nobody has asked to stop it, its repositories have room, and its wait is over. */
  predicate Claimable(config: Config, db: Db, action: Action, id: TaskId)
    requires action.Claim?
  {
    && id in db.tasks
    && var task := db.tasks[id];
       && task.lease.None? && !task.requiresManualIntervention && task.cancelRequestedAt.None?
       && (action.lane.ExecutionLane? ==> !AtItsLimit(config, db, task))
       && WaitIsOver(config, db, action, task)
  }

  /** Only these states have a handler that a schedule can permit. */
  lemma PermittedStates(config: Config, state: TaskState, override: StageGate.ScheduleOverride, now: int)
    requires StageGate.StagePermitted(config.schedule, state, override, now)
    ensures state in {Analyzing, Ready, Implementing, Testing, Fixing, Reviewing, PrCreated, WaitingCi,
                      ReadyForHumanReview}
  {
  }

  lemma OfferedWork(config: Config, db: Db, action: Action, state: TaskState)
    requires action.Claim?
    ensures var work := WorkNow(config, action.handlers, action.override, db.clock);
      && (state in work.parkedStates <==> Permitted(config, db, action, state))
      && (state in work.scheduleResumeStates
          <==> Permitted(config, db, action, state)
               && state in {Analyzing, Ready, Implementing, Testing, Fixing, Reviewing})
      && (state in work.limitResumeStates
          <==> Permitted(config, db, action, state) && state in {Analyzing, Implementing, Fixing, Reviewing})
  {
    if Permitted(config, db, action, state) {
      PermittedStates(config, state, action.override, db.clock);
    }
  }

  /** A claim considers exactly the claimable rows. */
  lemma CandidatesAreClaimable(config: Config, db: Db, action: Action, id: TaskId)
    requires action.Claim?
    ensures Candidate(db, ClaimInputNow(config, db, action.worker, action.lane, action.handlers, action.override), id)
       <==> Claimable(config, db, action, id)
  {
    hide StageGate.StagePermitted, StageGate.OperationGate, StartsSince, LeasedTouching, WorkNow, WaitIsOver, Eligible;
    var input := ClaimInputNow(config, db, action.worker, action.lane, action.handlers, action.override);
    if id in db.tasks {
      var task := db.tasks[id];
      assert TouchesSaturated(db, input, id) <==> action.lane.ExecutionLane? && AtItsLimit(config, db, task);
      EligibleExactly(config, db, action, task);
    }
  }

  lemma StartsNow(config: Config, db: Db, action: Action)
    requires action.Claim?
    ensures MayStart(db, ClaimInputNow(config, db, action.worker, action.lane, action.handlers, action.override))
       <==> MayStartNow(config, db, action)
  {
    OfferedWork(config, db, action, Analyzing);
  }

  lemma EligibleExactly(config: Config, db: Db, action: Action, task: Task)
    requires action.Claim?
    ensures Eligible(db, ClaimInputNow(config, db, action.worker, action.lane, action.handlers, action.override), task)
       <==> WaitIsOver(config, db, action, task)
  {
    hide StageGate.OperationGate, StartsSince, WorkNow, MayStart, MayStartNow;
    var input := ClaimInputNow(config, db, action.worker, action.lane, action.handlers, action.override);
    StartsNow(config, db, action);
    OfferedWork(config, db, action, task.state);
    if task.resumeState.Some? {
      OfferedWork(config, db, action, task.resumeState.value);
    }
    if Permitted(config, db, action, task.state) {
      PermittedStates(config, task.state, action.override, db.clock);
    }
    assert BlockersCompleted(db, task) <==> forall blocker :: blocker in task.blockers && blocker in db.tasks ==>
      db.tasks[blocker].state == Completed;
  }

  // ------------------------------------------------------------------ which of them is claimed

  /** New tasks, paused tasks, and tasks in progress. */
  predicate IsNew(task: Task) {
    task.state == Queued
  }

  predicate IsPaused(task: Task) {
    task.state in {PausedSchedule, PausedLimit}
  }

  predicate InProgress(task: Task) {
    !IsNew(task) && !IsPaused(task)
  }

  lemma SelectedIsCandidate(db: Db, input: ClaimInput, locked: set<TaskId>, id: TaskId)
    requires Selects(db, input, locked, id)
    ensures Candidate(db, input, id) && id !in locked
  {
  }

  /** Whatever work is offered: kinds come in this order, and within a kind the oldest first. */
  lemma SelectedInOrder(db: Db, input: ClaimInput, locked: set<TaskId>, id: TaskId, other: TaskId)
    requires Selects(db, input, locked, id) && Candidate(db, input, other) && other !in locked
    ensures var chosen, passed := db.tasks[id], db.tasks[other];
      && (IsNew(chosen) ==> IsNew(passed))
      && (IsPaused(chosen) ==> !InProgress(passed))
      && (IsNew(chosen) && IsNew(passed) ==> chosen.createdAt <= passed.createdAt)
      && (IsPaused(chosen) && IsPaused(passed) ==> chosen.createdAt <= passed.createdAt)
      && (InProgress(chosen) && InProgress(passed) ==> chosen.createdAt <= passed.createdAt)
  {
    hide HasCapacity, Eligible, TouchesSaturated;
  }

  /**
   A claim takes a claimable row that no other transaction holds. It takes a new task only when no claimable task is
   paused or in progress, a paused one only when none is in progress, and among its own kind none that is younger than
   another.
   */
  lemma FirstComesFirst(config: Config, db: Db, action: Action, other: TaskId)
    requires action.Claim? && ClaimsRow(config, db, action)
    ensures action.chosen !in action.locked && Claimable(config, db, action, action.chosen)
    ensures Claimable(config, db, action, other) && other !in action.locked ==>
      var chosen, passed := db.tasks[action.chosen], db.tasks[other];
      && (IsNew(chosen) ==> IsNew(passed))
      && (IsPaused(chosen) ==> !InProgress(passed))
      && (IsNew(chosen) && IsNew(passed) ==> chosen.createdAt <= passed.createdAt)
      && (IsPaused(chosen) && IsPaused(passed) ==> chosen.createdAt <= passed.createdAt)
      && (InProgress(chosen) && InProgress(passed) ==> chosen.createdAt <= passed.createdAt)
  {
    hide Claimable, Candidate, Selects;
    var input := ClaimInputNow(config, db, action.worker, action.lane, action.handlers, action.override);
    CandidatesAreClaimable(config, db, action, action.chosen);
    CandidatesAreClaimable(config, db, action, other);
    assert Candidate(db, input, action.chosen) && action.chosen !in action.locked by {
      SelectedIsCandidate(db, input, action.locked, action.chosen);
    }
    if Candidate(db, input, other) && other !in action.locked {
      SelectedInOrder(db, input, action.locked, action.chosen, other);
    }
  }

  /** While some row is claimable and its lane has room, a claim with the right choice takes effect. */
  lemma ClaimableIsClaimed(config: Config, db: Db, action: Action)
    requires action.Claim? && config.leaseDurationMs > 0
    requires |LeasedIn(db, action.lane)| < LaneLimit(config, action.lane)
    requires action.chosen !in action.locked && Claimable(config, db, action, action.chosen)
    requires forall other :: other in db.tasks && other !in action.locked && other != action.chosen ==>
      !Claimable(config, db, action, other)
    ensures ClaimsRow(config, db, action)
  {
    hide Eligible, MayStart, WorkNow, StartsSince;
    var input := ClaimInputNow(config, db, action.worker, action.lane, action.handlers, action.override);
    forall other | other in db.tasks ensures Candidate(db, input, other) <==> Claimable(config, db, action, other) {
      CandidatesAreClaimable(config, db, action, other);
    }
    assert Selects(db, input, action.locked, action.chosen);
  }

  /**
   What a claim does to its row: a new task is analyzed, a paused one stands where it was paused, any other stays where
   it is; the worker holds it for one lease duration from now.
   */
  lemma ClaimLeaves(config: Config, db: Db, action: Action)
    requires action.Claim? && ClaimsRow(config, db, action)
    ensures var before, after := db.tasks[action.chosen], Perform(config, db, action).tasks;
      && action.chosen in after
      && after[action.chosen].lease == Some(Lease(action.worker, db.clock + config.leaseDurationMs, db.clock))
      && (if IsNew(before) then after[action.chosen].state == Analyzing
          else if IsPaused(before) then Some(after[action.chosen].state) == before.resumeState
          else after[action.chosen] == before.(lease := after[action.chosen].lease))
  {
    hide MayStart, StartsSince, TouchesSaturated, WorkNow, Eligible, AtItsLimit, MayStartNow;
    CandidatesAreClaimable(config, db, action, action.chosen);
  }

  // ------------------------------------------------------------------ recovery

  /** The states in which a recovery pass leaves an expired lease alone. */
  const LEFT_ALONE: set<TaskState> := {Blocked, Completed, Cancelled}

  /**
   A pass for expired leases changes exactly the rows whose lease ended before now and that are neither blocked nor
   finished: they are blocked, flagged and let go. A pass for one worker does the same to exactly that worker's rows.
   */
  lemma RecoveryTakesExactly(config: Config, db: Db, scope: Scope, id: TaskId, reason: string)
    requires id in db.tasks && db.tasks[id].lease.Some?
    ensures var row, after := db.tasks[id], Perform(config, db, Recover(scope, id, reason));
      var due := match scope
                 case Expired => row.lease.value.expiresAt < db.clock
                 case Owned(worker) => row.lease.value.owner == worker;
      if due && row.state !in LEFT_ALONE then
        && after != db && id in after.tasks && after.tasks[id].lease.None?
        && after.tasks[id].state == Blocked && after.tasks[id].requiresManualIntervention
      else after == db
  {
    assert db.tasks[id].state !in LEFT_ALONE ==> CanTransition(db.tasks[id].state, Blocked);
  }

  // ------------------------------------------------------------------ leases over whole runs

  /** Every lease ends one lease duration after its holder was last heard of. */
  predicate LeaseTerms(config: Config, db: Db) {
    forall id :: id in db.tasks && db.tasks[id].lease.Some? ==>
      && config.leaseDurationMs > 0
      && db.tasks[id].lease.value.heartbeatAt <= db.clock
      && db.tasks[id].lease.value.expiresAt == db.tasks[id].lease.value.heartbeatAt + config.leaseDurationMs
  }

  /** A lease is granted or renewed for one duration from now; nothing else touches its columns except to clear them. */
  lemma LeaseStep(config: Config, db: Db, action: Action, id: TaskId)
    requires id in Perform(config, db, action).tasks && Perform(config, db, action).tasks[id].lease.Some?
    ensures var after := Perform(config, db, action);
      var lease := after.tasks[id].lease.value;
      && db.clock <= after.clock
      && ((id in db.tasks && db.tasks[id].lease == Some(lease))
          || (config.leaseDurationMs > 0 && lease.heartbeatAt == after.clock
              && lease.expiresAt == after.clock + config.leaseDurationMs))
  {
    PerformShape(config, db, action);
    if Target(action) == Some(id) {
      if action.Claim? && ClaimsRow(config, db, action) {
        ClaimLeaves(config, db, action);
      } else {
        HeldStep(config, db, action, id);
      }
    }
  }

  lemma HeldStep(config: Config, db: Db, action: Action, id: TaskId)
    requires Target(action) == Some(id) && !(action.Claim? && ClaimsRow(config, db, action))
    requires id in Perform(config, db, action).tasks && Perform(config, db, action).tasks[id].lease.Some?
    ensures id in db.tasks
    ensures var lease := Perform(config, db, action).tasks[id].lease.value;
      || db.tasks[id].lease == Some(lease)
      || (config.leaseDurationMs > 0 && lease == Lease(lease.owner, db.clock + config.leaseDurationMs, db.clock))
  {
    hide ClaimsRow;
  }

  lemma LeaseTermsStep(config: Config, db: Db, action: Action)
    requires LeaseTerms(config, db)
    ensures LeaseTerms(config, Perform(config, db, action))
  {
    hide Perform;
    var after := Perform(config, db, action);
    forall id | id in after.tasks && after.tasks[id].lease.Some?
      ensures config.leaseDurationMs > 0 && after.tasks[id].lease.value.heartbeatAt <= after.clock
      ensures after.tasks[id].lease.value.expiresAt
           == after.tasks[id].lease.value.heartbeatAt + config.leaseDurationMs
    {
      LeaseStep(config, db, action, id);
    }
  }

  lemma {:induction false} LeaseTermsInEveryRun(config: Config, start: Db, actions: seq<Action>)
    requires Initial(start)
    ensures LeaseTerms(config, PerformAll(config, start, actions))
  {
    hide Perform;
    if |actions| > 0 {
      LeaseTermsInEveryRun(config, start, actions[..|actions| - 1]);
      LeaseTermsStep(config, PerformAll(config, start, actions[..|actions| - 1]), actions[|actions| - 1]);
    }
  }

  /** When the worker last sent a heartbeat for the task in a run, or the run's beginning. */
  function LastHeard(config: Config, start: Db, actions: seq<Action>, id: TaskId, worker: Worker): int {
    if |actions| == 0 then start.clock
    else if actions[|actions| - 1] == Heartbeat(worker, id) then PerformAll(config, start, actions).clock
    else LastHeard(config, start, actions[..|actions| - 1], id, worker)
  }

  /** At every point of the run the worker was heard of no longer than one lease duration ago. */
  ghost predicate Punctual(config: Config, start: Db, actions: seq<Action>, id: TaskId, worker: Worker) {
    forall k :: 0 <= k <= |actions| ==>
      PerformAll(config, start, actions[..k]).clock - LastHeard(config, start, actions[..k], id, worker)
        <= config.leaseDurationMs
  }

  /** A lease of the worker on the task lasts at least one duration from the time it was last heard of. */
  predicate LastsLongEnough(config: Config, db: Db, id: TaskId, worker: Worker, heard: int) {
    && heard <= db.clock
    && (id in db.tasks && db.tasks[id].LeasedTo(worker) ==>
          db.tasks[id].lease.value.expiresAt >= heard + config.leaseDurationMs)
  }

  lemma LastsLongEnoughStep(config: Config, db: Db, action: Action, id: TaskId, worker: Worker, heard: int)
    requires LastsLongEnough(config, db, id, worker, heard) && config.leaseDurationMs > 0
    ensures var after := Perform(config, db, action);
      LastsLongEnough(config, after, id, worker, if action == Heartbeat(worker, id) then after.clock else heard)
  {
    if action.Claim? && ClaimsRow(config, db, action) {
      ClaimLeaves(config, db, action);
      PerformShape(config, db, action);
    }
  }

  lemma {:induction false} LastsInEveryRun(config: Config, start: Db, actions: seq<Action>, id: TaskId, worker: Worker)
    requires LastsLongEnough(config, start, id, worker, start.clock) && config.leaseDurationMs > 0
    ensures LastsLongEnough(config, PerformAll(config, start, actions), id, worker,
                            LastHeard(config, start, actions, id, worker))
  {
    hide Perform, LastsLongEnough;
    if |actions| > 0 {
      LastsInEveryRun(config, start, actions[..|actions| - 1], id, worker);
      LastsLongEnoughStep(config, PerformAll(config, start, actions[..|actions| - 1]), actions[|actions| - 1], id,
                          worker, LastHeard(config, start, actions[..|actions| - 1], id, worker));
    }
  }

  /**
   A holder that is heard of at least once per lease duration loses its row to no recovery of expired leases: whenever
   one comes in the run while the worker holds the task, it changes nothing.
   */
  lemma PunctualHolderKeepsItsRow(config: Config, start: Db, actions: seq<Action>, id: TaskId, worker: Worker, k: nat,
                                  reason: string)
    requires config.leaseDurationMs > 0 && Punctual(config, start, actions, id, worker)
    requires id in start.tasks && start.tasks[id].LeasedTo(worker)
    requires start.tasks[id].lease.value.expiresAt >= start.clock + config.leaseDurationMs
    requires k < |actions| && actions[k] == Recover(Expired, id, reason)
    requires var before := PerformAll(config, start, actions[..k]);
      id in before.tasks && before.tasks[id].LeasedTo(worker)
    ensures PerformAll(config, start, actions[..k + 1]) == PerformAll(config, start, actions[..k])
  {
    hide Perform;
    var before := PerformAll(config, start, actions[..k]);
    LastsInEveryRun(config, start, actions[..k], id, worker);
    RecoveryTakesExactly(config, before, Expired, id, reason);
    assert actions[..k + 1][..k] == actions[..k];
  }

  // ------------------------------------------------------------------ retries and deferrals

  /**
   An operator's retry takes effect exactly on a blocked or failed task that nobody holds. The task is queued again,
   without flag, cancel request, pause or due time, with its counters kept unless it had failed.
   */
  lemma RetryLeaves(config: Config, db: Db, id: TaskId)
    requires id in db.tasks
    ensures var row, after := db.tasks[id], Perform(config, db, Retry(id));
      if row.lease.None? && row.state in {Blocked, Failed} then
        && id in after.tasks && after.tasks[id].state == Queued && after.tasks[id].lease.None?
        && !after.tasks[id].requiresManualIntervention && after.tasks[id].cancelRequestedAt.None?
        && after.tasks[id].resumeState.None? && after.tasks[id].resumeAfter.None?
        && after.tasks[id].repositories == row.repositories && after.tasks[id].blockers == row.blockers
        && (if row.state == Failed then
              after.tasks[id].implementationAttempts == 0 && after.tasks[id].qualityFixAttempts == 0
                && after.tasks[id].reviewAttempts == 0
            else
              && after.tasks[id].implementationAttempts == row.implementationAttempts
              && after.tasks[id].qualityFixAttempts == row.qualityFixAttempts
              && after.tasks[id].reviewAttempts == row.reviewAttempts)
      else after == db
  {
  }

  /** A retried task can be claimed as soon as new tasks may start, its blockers are done and its repositories free. */
  lemma RetriedIsClaimable(config: Config, db: Db, id: TaskId, action: Action)
    requires id in db.tasks && db.tasks[id].lease.None? && db.tasks[id].state in {Blocked, Failed}
    requires action.Claim?
    requires var after := Perform(config, db, Retry(id));
      && MayStartNow(config, after, action) && !AtItsLimit(config, after, after.tasks[id])
      && (forall blocker :: blocker in db.tasks[id].blockers && blocker in after.tasks ==>
            after.tasks[blocker].state == Completed)
      && (config.rollout.repositories.Some? ==> db.tasks[id].repositories <= config.rollout.repositories.value)
    ensures Claimable(config, Perform(config, db, Retry(id)), action, id)
  {
    hide Perform, MayStartNow, AtItsLimit;
    RetryLeaves(config, db, id);
  }

  /** A task deferred by its holder is claimed by nobody before its time, whatever else happens to the table. */
  lemma DeferredWaitsForItsTime(config: Config, db: Db, worker: Worker, id: TaskId, until: int,
                                error: Option<Option<string>>, action: Action, later: Db)
    requires id in db.tasks && db.tasks[id].LeasedTo(worker) && InProgress(db.tasks[id])
    requires action.Claim? && id in later.tasks && later.clock < until
    requires later.tasks[id] == Perform(config, db, Defer(worker, id, until, error)).tasks[id]
    ensures !Claimable(config, later, action, id)
  {
  }

  /** A cancel request reaches a free task at once, and its holder otherwise; until then the task is not claimable. */
  lemma CancelLeaves(config: Config, db: Db, id: TaskId, action: Action)
    requires id in db.tasks && db.tasks[id].state !in TERMINAL_STATES && action.Claim?
    ensures var row, after := db.tasks[id], Perform(config, db, Cancel(id));
      && id in after.tasks && !Claimable(config, after, action, id)
      && (if row.lease.None? then after.tasks[id].state == Cancelled
          else after.tasks[id].state == row.state && after.tasks[id].lease == row.lease
               && after.tasks[id].cancelRequestedAt.Some?)
  {
    hide MayStartNow;
  }

  /**
   An operator's flag stops a task that is not finished: a free one is blocked where that is legal, a held one keeps its
   state and its holder until the next boundary; nobody can claim it.
   */
  lemma FlagLeaves(config: Config, db: Db, id: TaskId, note: string, action: Action)
    requires id in db.tasks && action.Claim?
    ensures var row, after := db.tasks[id], Perform(config, db, RequireManual(id, note));
      if row.state in {Completed, Cancelled} then after == db
      else
        && id in after.tasks && after.tasks[id].requiresManualIntervention && after.tasks[id].lease == row.lease
        && !Claimable(config, after, action, id)
        && after.tasks[id].state
           == if row.lease.None? && row.state !in {Blocked, Completed, Cancelled} then Blocked else row.state
  {
    hide MayStartNow;
    assert db.tasks[id].state !in {Blocked, Completed, Cancelled} ==> CanTransition(db.tasks[id].state, Blocked);
  }
}
