/** The repository methods that change the task table, each proved to do what its specification function says. */
module TaskRepository {
  import opened Wrappers
  import opened Domain
  import opened Tasks

  /** The outcome of an operation whose specification is `spec`: the new table, or the unchanged table and an error. */
  ghost predicate Follows(spec: Result<Db, TaskError>, before: Db, after: Db, error: Option<TaskError>) {
    match spec
    case Ok(db) => after == db && error.None?
    case Err(cause) => after == before && error == Some(cause)
  }

  /** Some candidate comes first, whatever the set. */
  lemma {:induction false} FirstCandidateExists(db: Db, ids: set<TaskId>)
    requires ids != {} && ids <= db.tasks.Keys
    ensures exists id :: id in ids && forall other :: other in ids ==> !ClaimedBefore(db.tasks[other], db.tasks[id])
  {
    var id :| id in ids;
    if ids != {id} {
      FirstCandidateExists(db, ids - {id});
      var others := ids - {id};
      var rest :| rest in others && forall other :: other in others ==> !ClaimedBefore(db.tasks[other], db.tasks[rest]);
      var first := if ClaimedBefore(db.tasks[id], db.tasks[rest]) then id else rest;
      assert forall other :: other in ids ==> other == id || other in ids - {id};
      assert first in ids && forall other :: other in ids ==> !ClaimedBefore(db.tasks[other], db.tasks[first]);
    } else {
      assert id in ids && forall other :: other in ids ==> !ClaimedBefore(db.tasks[other], db.tasks[id]);
    }
  }

  function RecoveredOne(db: Db, id: TaskId, reason: string): Db {
    var step := RecoveredRow(db, id, reason);
    if step.Ok? then step.value else db
  }

  /** Recovering rows one after another. */
  function RecoveredAll(db: Db, ids: seq<TaskId>, reason: string): Db {
    if |ids| == 0 then db else RecoveredOne(RecoveredAll(db, ids[..|ids| - 1], reason), ids[|ids| - 1], reason)
  }

  ghost predicate NoRepeats(ids: seq<TaskId>) {
    forall i, j :: 0 <= i < j < |ids| ==> ids[i] != ids[j]
  }

  lemma NoRepeatsNext(ids: seq<TaskId>, id: TaskId)
    requires NoRepeats(ids) && id !in ids
    ensures NoRepeats(ids + [id])
  {
  }

  lemma RecoveredNext(db: Db, ids: seq<TaskId>, id: TaskId, reason: string)
    ensures RecoveredAll(db, ids + [id], reason) == RecoveredOne(RecoveredAll(db, ids, reason), id, reason)
  {
    assert (ids + [id])[..|ids|] == ids;
  }

  /** Whether a recovery pass is for this lease, and the row is neither blocked nor finished. */
  predicate IsLost(task: Task, scope: RecoveryScope) {
    && task.lease.Some? && task.state != Blocked && task.state != Completed && task.state != Cancelled
    && match scope
       case ExpiredBefore(now) => task.lease.value.expiresAt < now
       case OwnedBy(worker) => task.lease.value.owner == worker
  }

  predicate HandedToOperator(task: Task) {
    task.state == Blocked && task.requiresManualIntervention && task.lease.None?
  }

  lemma LostIsHandedOver(db: Db, id: TaskId, scope: RecoveryScope, reason: string)
    requires id in db.tasks
    ensures Recoverable(db.tasks[id], scope) <==> IsLost(db.tasks[id], scope)
    ensures IsLost(db.tasks[id], scope)
            ==> id in RecoveredOne(db, id, reason).tasks && HandedToOperator(RecoveredOne(db, id, reason).tasks[id])
  {
    assert IsLost(db.tasks[id], scope) ==> CanTransition(db.tasks[id].state, Blocked);
  }

  lemma NothingRecovered(db: Db, reason: string)
    ensures RecoveredAll(db, [], reason) == db
  {
  }

  lemma LostIsLeased(task: Task, scope: RecoveryScope)
    requires IsLost(task, scope)
    ensures task.lease.Some?
  {
  }

  class TaskTable {
    var tasks: map<TaskId, Task>
    var log: seq<Transition>
    var clock: int

    ghost function View(): Db
      reads this
    {
      Db(tasks, log, clock)
    }

    constructor (initial: map<TaskId, Task>, now: int)
      ensures View() == Db(initial, [], now)
    {
      tasks, log, clock := initial, [], now;
    }

    /** Validates and applies one transition to a row already locked, then appends its history record. */
    method TransitionLockedTask(id: TaskId, input: LockedTransition) returns (error: Option<TaskError>)
      modifies this
      ensures Follows(Transitioned(old(View()), id, input), old(View()), View(), error)
    {
      if id !in tasks {
        return Some(TaskNotFound);
      }
      var task := tasks[id];
      match TransitionRow(task, input, clock) {
        case Err(cause) =>
          return Some(cause);
        case Ok(row) =>
          tasks := tasks[id := row];
          log := log + [Transition(id, task.state, input.to, clock)];
          return None;
      }
    }

    /** Claims one executable task, or none; `locked` are the rows other transactions hold. */
    method ClaimNextTask(input: ClaimInput, locked: set<TaskId>)
      returns (claimed: Option<TaskId>, error: Option<TaskError>)
      modifies this
      ensures claimed.Some? ==> input.leaseDurationMs > 0 && Selects(old(View()), input, locked, claimed.value)
      ensures claimed.Some? ==> Follows(Claimed(old(View()), input, claimed.value), old(View()), View(), error)
      ensures claimed.None? ==> View() == old(View())
      ensures claimed.None? && error.None? ==> forall id :: !Selects(old(View()), input, locked, id)
      ensures claimed.None? && error.Some? ==> input.leaseDurationMs <= 0 && error == Some(BadArgument)
    {
      if input.leaseDurationMs <= 0 {
        return None, Some(BadArgument);
      }
      var db := Db(tasks, log, clock);
      if !HasCapacity(db, input) {
        return None, None;
      }
      var candidates := set id | id in tasks && id !in locked && Candidate(db, input, id);
      if candidates == {} {
        assert forall id :: Selects(db, input, locked, id) ==> id in candidates;
        return None, None;
      }
      FirstCandidateExists(db, candidates);
      var id :| id in candidates && forall other :: other in candidates ==> !ClaimedBefore(tasks[other], tasks[id]);
      assert Selects(db, input, locked, id);
      var task := tasks[id];
      var lease := GrantedLease(input);
      if task.state == Queued {
        error := TransitionLockedTask(id, LockedTransition(Analyzing, lease := GrantLease(lease)));
      } else if IsPause(task.state) && task.resumeState.Some? {
        error := TransitionLockedTask(id, LockedTransition(task.resumeState.value, lease := GrantLease(lease)));
      } else {
        tasks := tasks[id := task.(lease := Some(lease))];
        error := None;
      }
      claimed := Some(id);
    }

    /** Clears the lease and keeps the state; only the current owner may. */
    method ReleaseLease(id: TaskId, worker: Worker, lastError: Option<string>, manual: Option<bool>)
      returns (error: Option<TaskError>)
      modifies this
      ensures Follows(Released(old(View()), id, worker, lastError, manual), old(View()), View(), error)
    {
      if id !in tasks || !tasks[id].LeasedTo(worker) {
        return Some(LeaseOwnership);
      }
      var task := tasks[id].(lease := None);
      if lastError.Some? {
        task := task.(lastError := lastError);
      }
      if manual.Some? {
        task := task.(requiresManualIntervention := manual.value);
      }
      tasks := tasks[id := task];
      return None;
    }

    /** Releases the lease and makes the task claimable again only after `until`. */
    method DeferTask(id: TaskId, worker: Worker, until: int, lastError: Option<Option<string>>)
      returns (error: Option<TaskError>)
      modifies this
      ensures Follows(Deferred(old(View()), id, worker, until, lastError), old(View()), View(), error)
    {
      if id !in tasks || !tasks[id].LeasedTo(worker) {
        return Some(LeaseOwnership);
      }
      var task := tasks[id].(lease := None, resumeAfter := Some(until));
      if lastError.Some? {
        task := task.(lastError := lastError.value);
      }
      tasks := tasks[id := task];
      return None;
    }

    method Heartbeat(id: TaskId, worker: Worker, leaseDurationMs: int, now: int) returns (error: Option<TaskError>)
      modifies this
      ensures Follows(HeartbeatSent(old(View()), id, worker, leaseDurationMs, now), old(View()), View(), error)
    {
      if leaseDurationMs <= 0 {
        return Some(BadArgument);
      }
      if id !in tasks || !tasks[id].LeasedTo(worker) {
        return Some(LeaseOwnership);
      }
      tasks := tasks[id := tasks[id].(lease := Some(Lease(worker, now + leaseDurationMs, now)))];
      return None;
    }

    /** Blocks one selected row, or only flags it when its state has no transition to blocked. */
    method RecoverRow(id: TaskId, reason: string)
      requires id in tasks && tasks[id].lease.Some?
      modifies this
      ensures View() == RecoveredOne(old(View()), id, reason)
      ensures tasks.Keys == old(tasks).Keys
      ensures forall other :: other in tasks && other != id ==> tasks[other] == old(tasks)[other]
    {
      if CanTransition(tasks[id].state, Blocked) {
        var error := TransitionLockedTask(id, RecoveryTransition());
      } else {
        tasks := tasks[id := tasks[id].(lease := None, requiresManualIntervention := true, lastError := Some(reason))];
      }
    }

    /**
     Recovers every selected row that no other transaction holds. `recovered` lists them in the order they were handled.
     */
    method RecoverLeases(scope: RecoveryScope, locked: set<TaskId>, reason: string) returns (recovered: seq<TaskId>)
      modifies this
      ensures View() == RecoveredAll(old(View()), recovered, reason)
      ensures NoRepeats(recovered)
      ensures forall id :: id in recovered <==>
        id in old(tasks) && id !in locked && IsLost(old(tasks)[id], scope)
      ensures forall id :: id in recovered ==> id in tasks && HandedToOperator(tasks[id])
      ensures tasks.Keys == old(tasks).Keys
      ensures forall id :: id in tasks && id !in recovered ==> tasks[id] == old(tasks)[id]
    {
      hide RecoveredOne, RecoveredAll, HandedToOperator, Recoverable, IsLost;
      NothingRecovered(View(), reason);
      forall id | id in tasks ensures Recoverable(tasks[id], scope) <==> IsLost(tasks[id], scope) {
        LostIsHandedOver(Db(tasks, log, clock), id, scope, reason);
      }
      var candidates := set id | id in tasks && id !in locked && Recoverable(tasks[id], scope);
      var pending := candidates;
      recovered := [];
      while pending != {}
        invariant pending <= candidates
        invariant forall id :: id in recovered <==> id in candidates - pending
        invariant NoRepeats(recovered)
        invariant tasks.Keys == old(tasks).Keys
        invariant forall id :: id in tasks && id !in recovered ==> tasks[id] == old(tasks)[id]
        invariant forall id :: id in recovered ==> id in tasks && HandedToOperator(tasks[id])
        invariant View() == RecoveredAll(old(View()), recovered, reason)
        decreases |pending|
      {
        var id :| id in pending;
        RecoveredNext(old(View()), recovered, id, reason);
        LostIsHandedOver(Db(tasks, log, clock), id, scope, reason);
        LostIsLeased(tasks[id], scope);
        RecoverRow(id, reason);
        NoRepeatsNext(recovered, id);
        recovered := recovered + [id];
        pending := pending - {id};
      }
    }

    /** Re-queues an unleased blocked or failed task; a failed task gets one new bounded cycle. */
    method RetryTask(id: TaskId) returns (error: Option<TaskError>)
      modifies this
      ensures Follows(Retried(old(View()), id), old(View()), View(), error)
    {
      if id !in tasks {
        return Some(TaskNotFound);
      }
      var task := tasks[id];
      if task.lease.Some? || !CanTransition(task.state, Queued) {
        return Some(Conflict);
      }
      error := TransitionLockedTask(id, LockedTransition(Queued,
        requiresManualIntervention := Some(false), lastError := Some(None), clearCancelRequest := true,
        resetAttemptCounters := task.state == Failed));
    }

    /** Cancels an unleased task at once; a leased one only receives a request that its owner applies. */
    method CancelTask(id: TaskId) returns (pending: bool, error: Option<TaskError>)
      modifies this
      ensures Follows(CancelRequested(old(View()), id), old(View()), View(), error)
      ensures error.None? ==> pending == old(tasks)[id].lease.Some?
    {
      pending := false;
      if id !in tasks {
        return false, Some(TaskNotFound);
      }
      var task := tasks[id];
      if !CanTransition(task.state, Cancelled) {
        return false, Some(Conflict);
      }
      if task.lease.Some? {
        tasks := tasks[id := task.(cancelRequestedAt := Some(GetOr(task.cancelRequestedAt, clock)))];
        return true, None;
      }
      error := TransitionLockedTask(id, LockedTransition(Cancelled));
    }

    method RequireManualIntervention(id: TaskId, note: string) returns (error: Option<TaskError>)
      modifies this
      ensures Follows(ManualRequired(old(View()), id, note), old(View()), View(), error)
    {
      if id !in tasks {
        return Some(TaskNotFound);
      }
      var task := tasks[id];
      if task.state in TERMINAL_STATES {
        return Some(Conflict);
      }
      if task.lease.None? && CanTransition(task.state, Blocked) {
        error := TransitionLockedTask(id,
          LockedTransition(Blocked, requiresManualIntervention := Some(true), lastError := Some(Some(note))));
      } else {
        tasks := tasks[id := task.(requiresManualIntervention := true, lastError := Some(note))];
        error := None;
      }
    }
  }
}
