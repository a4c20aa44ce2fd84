/** What holds in every run of the task table, whatever the workers, the recovery passes and the operator do. */
module TaskRuns {
  import opened Wrappers
  import opened Domain
  import opened Tasks
  import opened TaskActions

  // ------------------------------------------------------------------ one step

  /** The parts of a row that never change. */
  predicate SameIdentity(before: Task, after: Task) {
    && after.repositories == before.repositories
    && after.blockers == before.blockers
    && after.createdAt == before.createdAt
  }

  /** Row `id` changes in place, without a transition. */
  predicate Touched(before: Db, after: Db, id: TaskId) {
    && id in before.tasks && id in after.tasks
    && SameIdentity(before.tasks[id], after.tasks[id])
    && after.tasks[id].state == before.tasks[id].state
    && after.tasks[id].resumeState == before.tasks[id].resumeState
    && after == Db(before.tasks[id := after.tasks[id]], before.log, before.clock)
  }

  /** Row `id` makes one legal transition, and the history records exactly that transition. */
  predicate Moved(before: Db, after: Db, id: TaskId) {
    && id in before.tasks && id in after.tasks
    && SameIdentity(before.tasks[id], after.tasks[id])
    && CanTransition(before.tasks[id].state, after.tasks[id].state)
    && after == Db(before.tasks[id := after.tasks[id]],
                   before.log + [Transition(id, before.tasks[id].state, after.tasks[id].state, before.clock)],
                   before.clock)
  }

  predicate Created(before: Db, after: Db, id: TaskId) {
    && id !in before.tasks && id in after.tasks
    && after.tasks[id] == NewTask(before.clock, after.tasks[id].repositories, after.tasks[id].blockers)
    && after.tasks[id].blockers <= before.tasks.Keys
    && after == Db(before.tasks[id := after.tasks[id]], before.log, before.clock)
  }

  predicate Aged(before: Db, after: Db) {
    before.clock <= after.clock && after == before.(clock := after.clock)
  }

  predicate StepShape(before: Db, after: Db, target: Option<TaskId>) {
    || Aged(before, after)
    || (target.Some? && Touched(before, after, target.value))
    || (target.Some? && Moved(before, after, target.value))
    || (target.Some? && Created(before, after, target.value))
  }

  lemma TransitionShape(db: Db, id: TaskId, input: LockedTransition)
    ensures var after := Settled(db, Transitioned(db, id, input)); after == db || Moved(db, after, id)
  {
  }

  /** Every action changes at most its target row, in one of these ways. */
  lemma PerformShape(config: Config, db: Db, action: Action)
    ensures StepShape(db, Perform(config, db, action), Target(action))
  {
    match action
    case Create(_, _, _) =>
    case Claim(worker, lane, handlers, override, locked, chosen) =>
      var input := ClaimInputNow(config, db, worker, lane, handlers, override);
      TransitionShape(db, chosen, LockedTransition(Analyzing, lease := GrantLease(GrantedLease(input))));
      if chosen in db.tasks && db.tasks[chosen].resumeState.Some? {
        TransitionShape(db, chosen,
                        LockedTransition(db.tasks[chosen].resumeState.value, lease := GrantLease(GrantedLease(input))));
      }
    case WorkerTransition(_, id, input) => TransitionShape(db, id, input);
    case Heartbeat(_, _) =>
    case Release(_, _, _, _) =>
    case Defer(_, _, _, _) =>
    case Recover(_, id, _) => TransitionShape(db, id, RecoveryTransition());
    case Retry(id) => RetryShape(db, id);
    case Cancel(id) => TransitionShape(db, id, LockedTransition(Cancelled));
    case RequireManual(id, note) =>
      TransitionShape(db, id, LockedTransition(Blocked, requiresManualIntervention := Some(true),
                                               lastError := Some(Some(note))));
    case Elapse(_) =>
  }

  lemma RetryShape(db: Db, id: TaskId)
    ensures var after := Settled(db, Retried(db, id)); after == db || Moved(db, after, id)
  {
    if id in db.tasks {
      TransitionShape(db, id,
                      LockedTransition(Queued, requiresManualIntervention := Some(false), lastError := Some(None),
        clearCancelRequest := true, resetAttemptCounters := db.tasks[id].state == Failed));
    }
  }

  // ------------------------------------------------------------------ history

  /** Replays the history of one task from queued; None when it is not a legal walk. */
  function Walk(log: seq<Transition>, id: TaskId): Option<TaskState> {
    if |log| == 0 then Some(Queued)
    else
      var earlier := Walk(log[..|log| - 1], id);
      var last := log[|log| - 1];
      if last.taskId != id then earlier
      else if earlier == Some(last.from) && CanTransition(last.from, last.to) then Some(last.to)
      else None
  }

  ghost predicate HistoryKept(db: Db) {
    && (forall id :: id in db.tasks ==> Walk(db.log, id) == Some(db.tasks[id].state))
    && (forall i :: 0 <= i < |db.log| ==> db.log[i].taskId in db.tasks)
  }

  lemma {:induction false} NeverLogged(log: seq<Transition>, id: TaskId)
    requires forall i :: 0 <= i < |log| ==> log[i].taskId != id
    ensures Walk(log, id) == Some(Queued)
  {
    if |log| > 0 {
      NeverLogged(log[..|log| - 1], id);
    }
  }

  lemma HistoryStep(config: Config, db: Db, action: Action)
    requires HistoryKept(db)
    ensures HistoryKept(Perform(config, db, action))
  {
    hide Perform, CanTransition;
    var after := Perform(config, db, action);
    PerformShape(config, db, action);
    if |after.log| > |db.log| {
      assert after.log[..|after.log| - 1] == db.log;
    }
    forall id | id in after.tasks ensures Walk(after.log, id) == Some(after.tasks[id].state) {
      if id !in db.tasks {
        NeverLogged(db.log, id);
      }
    }
  }

  /**
   In every run, each task's history is a walk through the legal transitions that starts queued and ends in the task's
   current state.
   */
  lemma {:induction false} HistoryIsALegalWalk(config: Config, start: Db, actions: seq<Action>)
    requires Initial(start)
    ensures HistoryKept(PerformAll(config, start, actions))
  {
    if |actions| > 0 {
      HistoryIsALegalWalk(config, start, actions[..|actions| - 1]);
      HistoryStep(config, PerformAll(config, start, actions[..|actions| - 1]), actions[|actions| - 1]);
    }
  }

  /** A completed or cancelled task never changes state again. */
  lemma {:induction false} FinishedStays(config: Config, start: Db, actions: seq<Action>, id: TaskId)
    requires id in start.tasks && start.tasks[id].state in TERMINAL_STATES
    ensures id in PerformAll(config, start, actions).tasks
    ensures PerformAll(config, start, actions).tasks[id].state == start.tasks[id].state
  {
    if |actions| > 0 {
      FinishedStays(config, start, actions[..|actions| - 1], id);
      PerformShape(config, PerformAll(config, start, actions[..|actions| - 1]), actions[|actions| - 1]);
    }
  }

  /** The history records that a review of the task was accepted for delivery. */
  ghost predicate WasReviewed(log: seq<Transition>, id: TaskId) {
    exists i :: 0 <= i < |log| && log[i].taskId == id && log[i].from == Reviewing && log[i].to == PrCreated
  }

  /** States in which something of the task has left the host. */
  const DELIVERED_STATES: set<TaskState> := {PrCreated, WaitingCi, ReadyForHumanReview, Completed}

  ghost predicate ReviewedBeforeDelivery(db: Db) {
    forall id :: id in db.tasks && db.tasks[id].state in DELIVERED_STATES ==> WasReviewed(db.log, id)
  }

  /** There is one way into delivery. */
  lemma OneWayIn(from: TaskState, to: TaskState)
    requires CanTransition(from, to) && to in DELIVERED_STATES && from !in DELIVERED_STATES
    ensures from == Reviewing && to == PrCreated
  {
  }

  lemma ReviewedStays(before: seq<Transition>, after: seq<Transition>, id: TaskId)
    requires before <= after && WasReviewed(before, id)
    ensures WasReviewed(after, id)
  {
    var i :| 0 <= i < |before| && before[i].taskId == id && before[i].from == Reviewing && before[i].to == PrCreated;
    assert after[i] == before[i];
  }

  lemma ReviewedShape(before: Db, after: Db, target: Option<TaskId>, id: TaskId)
    requires StepShape(before, after, target) && id in after.tasks && after.tasks[id].state in DELIVERED_STATES
    requires id in before.tasks && before.tasks[id].state in DELIVERED_STATES ==> WasReviewed(before.log, id)
    ensures WasReviewed(after.log, id)
  {
    hide CanTransition, WasReviewed;
    assert before.log <= after.log;
    if id in before.tasks && before.tasks[id].state in DELIVERED_STATES {
      ReviewedStays(before.log, after.log, id);
    } else {
      assert id in before.tasks && Moved(before, after, id);
      OneWayIn(before.tasks[id].state, after.tasks[id].state);
      LastIsReview(after.log, id);
    }
  }

  lemma LastIsReview(log: seq<Transition>, id: TaskId)
    requires |log| > 0 && log[|log| - 1].taskId == id
    requires log[|log| - 1].from == Reviewing && log[|log| - 1].to == PrCreated
    ensures WasReviewed(log, id)
  {
  }

  lemma ReviewedStep(config: Config, db: Db, action: Action)
    requires ReviewedBeforeDelivery(db)
    ensures ReviewedBeforeDelivery(Perform(config, db, action))
  {
    hide Perform, StepShape, WasReviewed;
    var after := Perform(config, db, action);
    PerformShape(config, db, action);
    forall id | id in after.tasks && after.tasks[id].state in DELIVERED_STATES ensures WasReviewed(after.log, id) {
      ReviewedShape(db, after, Target(action), id);
    }
  }

  /** In every run, a task that is delivered or completed has passed its review. */
  lemma {:induction false} NoDeliveryWithoutReview(config: Config, start: Db, actions: seq<Action>)
    requires Initial(start)
    ensures ReviewedBeforeDelivery(PerformAll(config, start, actions))
  {
    hide Perform;
    if |actions| > 0 {
      NoDeliveryWithoutReview(config, start, actions[..|actions| - 1]);
      ReviewedStep(config, PerformAll(config, start, actions[..|actions| - 1]), actions[|actions| - 1]);
    }
  }

  // ------------------------------------------------------------------ pauses

  /** The first recorded transition of one task. */
  function FirstMove(log: seq<Transition>, id: TaskId): Option<Transition> {
    if |log| == 0 then None
    else
      var earlier := FirstMove(log[..|log| - 1], id);
      if earlier.Some? then earlier
      else if log[|log| - 1].taskId == id then Some(log[|log| - 1])
      else None
  }

  predicate ParkedFor(db: Db, id: TaskId, pause: TaskState, resume: TaskState) {
    && id in db.tasks && db.tasks[id].lease.None?
    && db.tasks[id].state == pause && db.tasks[id].resumeState == Some(resume)
  }

  /** A worker can only stop a parked task: it holds no lease there, and pauses do not lead to pauses. */
  lemma ParkedRowUnderWorker(row: Task, worker: Worker, input: LockedTransition, now: int)
    requires row.lease.None? && IsPause(row.state) && SchedulerInput(worker, input)
    ensures TransitionRow(row, input, now).Ok? ==> input.to in {Blocked, Cancelled}
  {
  }

  lemma ParkedOtherTarget(config: Config, db: Db, action: Action, id: TaskId, pause: TaskState, resume: TaskState)
    requires ParkedFor(db, id, pause, resume) && Target(action) != Some(id)
    ensures var after := Perform(config, db, action);
      ParkedFor(after, id, pause, resume) && (after.log == db.log || after.log[|after.log| - 1].taskId != id)
  {
    PerformShape(config, db, action);
  }

  lemma ParkedStep(config: Config, db: Db, action: Action, id: TaskId, pause: TaskState, resume: TaskState)
    requires ParkedFor(db, id, pause, resume) && IsPause(pause)
    ensures var after := Perform(config, db, action);
      || (ParkedFor(after, id, pause, resume) && (after.log == db.log || after.log[|after.log| - 1].taskId != id))
      || (id in after.tasks && Moved(db, after, id) && after.tasks[id].state in {resume, Blocked, Cancelled})
  {
    if Target(action) != Some(id) {
      ParkedOtherTarget(config, db, action, id, pause, resume);
    } else {
      match action
      case Create(_, _, _) =>
      case Claim(worker, lane, handlers, override, locked, chosen) =>
        var input := ClaimInputNow(config, db, worker, lane, handlers, override);
        TransitionShape(db, chosen, LockedTransition(resume, lease := GrantLease(GrantedLease(input))));
      case WorkerTransition(worker, _, input) =>
        TransitionShape(db, id, input);
        if SchedulerInput(worker, input) {
          ParkedRowUnderWorker(db.tasks[id], worker, input, db.clock);
        }
      case Heartbeat(_, _) =>
      case Release(_, _, _, _) =>
      case Defer(_, _, _, _) =>
      case Recover(_, _, _) =>
      case Retry(_) =>
      case Cancel(_) => TransitionShape(db, id, LockedTransition(Cancelled));
      case RequireManual(_, note) =>
        TransitionShape(db, id, LockedTransition(Blocked, requiresManualIntervention := Some(true),
                                                 lastError := Some(Some(note))));
      case Elapse(_) =>
    }
  }

  /** A pause that the lease holder makes from the state it is in. */
  predicate HolderPauses(db: Db, worker: Worker, id: TaskId, input: LockedTransition) {
    && id in db.tasks && db.tasks[id].LeasedTo(worker)
    && SchedulerInput(worker, input) && IsPause(input.to) && input.resumeState == Some(db.tasks[id].state)
    && Transitioned(db, id, input).Ok?
  }

  lemma PauseParks(config: Config, db: Db, worker: Worker, id: TaskId, input: LockedTransition)
    requires HolderPauses(db, worker, id, input)
    ensures ParkedFor(Perform(config, db, WorkerTransition(worker, id, input)), id, input.to, db.tasks[id].state)
  {
  }

  /**
   After a pause that the lease holder made from state x, the task's next transition, whenever it comes and whoever
   causes it, leads back to x, to blocked, or to cancelled; until then the task stays paused for x.
   */
  lemma {:induction false} PauseReturnsOrStops(config: Config, db: Db, worker: Worker, id: TaskId,
                                               input: LockedTransition, actions: seq<Action>)
    requires HolderPauses(db, worker, id, input)
    ensures var paused := Perform(config, db, WorkerTransition(worker, id, input));
      var after := PerformAll(config, paused, actions);
      && paused.log <= after.log
      && match FirstMove(after.log[|paused.log|..], id) {
           case None => ParkedFor(after, id, input.to, db.tasks[id].state)
           case Some(move) => move.from == input.to && move.to in {db.tasks[id].state, Blocked, Cancelled}
         }
  {
    hide Perform;
    PauseParks(config, db, worker, id, input);
    var paused := Perform(config, db, WorkerTransition(worker, id, input));
    if |actions| == 0 {
      assert paused.log[|paused.log|..] == [];
    } else {
      var before := PerformAll(config, paused, actions[..|actions| - 1]);
      var action := actions[|actions| - 1];
      var after := Perform(config, before, action);
      PauseReturnsOrStops(config, db, worker, id, input, actions[..|actions| - 1]);
      PerformShape(config, before, action);
      if after.log != before.log {
        var suffix := after.log[|paused.log|..];
        assert suffix[..|suffix| - 1] == before.log[|paused.log|..];
        assert suffix[|suffix| - 1] == after.log[|after.log| - 1];
      }
      if FirstMove(before.log[|paused.log|..], id).None? {
        ParkedStep(config, before, action, id, input.to, db.tasks[id].state);
      }
    }
  }

  // ------------------------------------------------------------------ ownership

  /**
   While a row is leased to a worker, its state changes only by that worker's own call or by a recovery, of leases that
   have expired or of that worker's own, which blocks it, clears the lease and asks for an operator; and one step never
   hands the lease to another worker.
   */
  lemma HolderRules(config: Config, db: Db, action: Action, id: TaskId, worker: Worker)
    requires id in db.tasks && db.tasks[id].LeasedTo(worker)
    ensures var after := Perform(config, db, action);
      && id in after.tasks
      && (after.tasks[id].lease.Some? ==> after.tasks[id].LeasedTo(worker))
      && (after.tasks[id].state != db.tasks[id].state ==>
            || (action.WorkerTransition? && action.worker == worker)
            || (action.Recover? && after.tasks[id].state == Blocked && after.tasks[id].lease.None?
                && after.tasks[id].requiresManualIntervention
                && match action.scope
                   case Expired => db.tasks[id].lease.value.expiresAt < db.clock
                   case Owned(owner) => owner == worker))
  {
    if Target(action) != Some(id) {
      PerformShape(config, db, action);
    }
  }

  /** A lease changes hands only through an unleased row. */
  lemma {:induction false} OwnershipPassesThroughUnleased(config: Config, start: Db, actions: seq<Action>, id: TaskId,
                                                          worker: Worker)
    requires id in start.tasks && start.tasks[id].LeasedTo(worker)
    requires forall k :: 0 <= k <= |actions| && id in PerformAll(config, start, actions[..k]).tasks
               ==> PerformAll(config, start, actions[..k]).tasks[id].lease.Some?
    ensures id in PerformAll(config, start, actions).tasks
    ensures PerformAll(config, start, actions).tasks[id].LeasedTo(worker)
  {
    if |actions| > 0 {
      var earlier := actions[..|actions| - 1];
      forall k | 0 <= k <= |earlier| && id in PerformAll(config, start, earlier[..k]).tasks
        ensures PerformAll(config, start, earlier[..k]).tasks[id].lease.Some?
      {
        assert earlier[..k] == actions[..k];
      }
      OwnershipPassesThroughUnleased(config, start, earlier, id, worker);
      HolderRules(config, PerformAll(config, start, earlier), actions[|actions| - 1], id, worker);
      assert actions[..|actions|] == actions;
    }
  }

  predicate AwaitsOperator(db: Db, id: TaskId) {
    id in db.tasks && db.tasks[id].lease.None? && db.tasks[id].requiresManualIntervention
  }

  lemma AwaitsOperatorStep(config: Config, db: Db, action: Action, id: TaskId)
    requires AwaitsOperator(db, id) && action != Retry(id)
    ensures AwaitsOperator(Perform(config, db, action), id)
  {
    if Target(action) != Some(id) {
      PerformShape(config, db, action);
    }
  }

  /** A recovered task is leased to nobody until an operator retries it. */
  lemma {:induction false} RecoveredWaitsForRetry(config: Config, db: Db, scope: Scope, id: TaskId, reason: string,
                                                  actions: seq<Action>)
    requires Perform(config, db, Recover(scope, id, reason)) != db
    requires Retry(id) !in actions
    ensures AwaitsOperator(PerformAll(config, Perform(config, db, Recover(scope, id, reason)), actions), id)
  {
    if |actions| > 0 {
      RecoveredWaitsForRetry(config, db, scope, id, reason, actions[..|actions| - 1]);
      var recovered := Perform(config, db, Recover(scope, id, reason));
      AwaitsOperatorStep(config, PerformAll(config, recovered, actions[..|actions| - 1]), actions[|actions| - 1], id);
    }
  }

  /** Every row that a recovery pass selects can be blocked, so the pass never falls back to flagging it. */
  lemma RecoveryAlwaysBlocks(db: Db, id: TaskId, scope: RecoveryScope, reason: string)
    requires id in db.tasks && Recoverable(db.tasks[id], scope)
    ensures RecoveredRow(db, id, reason).Ok?
    ensures RecoveredRow(db, id, reason).value.tasks[id].state == Blocked
    ensures Moved(db, RecoveredRow(db, id, reason).value, id)
  {
    assert CanTransition(db.tasks[id].state, Blocked);
    TransitionShape(db, id, RecoveryTransition());
  }
}
