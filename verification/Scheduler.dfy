/**
 The scheduler's loop around one claimed task: check the boundary, run the stage handler, apply its outcome, and go on
 until the lease is given up. Agents, operator controls and everything other processes do meanwhile are scripted.
 */
module Scheduler {
  import opened Wrappers
  import opened Domain
  import opened Tasks
  import opened TaskRepository
  import opened TaskActions
  import opened StagePlans
  import opened ExecutionSafety
  import opened ExecutionStages
  import opened ExecutionRuns
  import StageGate

  /** One pass of the loop: the controls it reads, what the handler meets, and what others do to the table meanwhile. */
  datatype Visit = Visit(
    stopping: bool,
    killSwitch: bool,
    pauseNewWork: bool,
    override: StageGate.ScheduleOverride,
    input: StageInput,
    /** The abort signal was raised while the handler ran. */
    aborted: bool,
    /** A heartbeat of this run found the lease gone. */
    leaseLost: bool,
    meanwhile: seq<Action>)

  lemma {:induction false} PerformedTogether(config: Config, db: Db, first: seq<Action>, second: seq<Action>)
    ensures PerformAll(config, db, first + second) == PerformAll(config, PerformAll(config, db, first), second)
  {
    if |second| == 0 {
      assert first + second == first;
    } else {
      assert (first + second)[..|first + second| - 1] == first + second[..|second| - 1];
      PerformedTogether(config, db, first, second[..|second| - 1]);
    }
  }

  lemma OnePerformed(config: Config, db: Db, action: Action)
    ensures PerformAll(config, db, [action]) == TaskActions.Perform(config, db, action)
  {
    assert [action][..0] == [];
  }

  /** An action of the loop itself: a transition, a release or a deferral by its own worker on its own task. */
  predicate OwnAction(id: TaskId, worker: Worker, action: Action) {
    || (action.WorkerTransition? && action.worker == worker && action.id == id && SchedulerInput(worker, action.input))
    || (action.Release? && action.worker == worker && action.id == id)
    || (action.Defer? && action.worker == worker && action.id == id)
  }

  class TaskRunner {
    const setting: Setting
    const worker: Worker
    const handlers: set<TaskState>
    const table: TaskTable
    const stages: Handlers

    constructor (setting: Setting, worker: Worker, handlers: set<TaskState>, table: TaskTable, stages: Handlers)
      ensures this.setting == setting && this.worker == worker && this.handlers == handlers
      ensures this.table == table && this.stages == stages
    {
      this.setting, this.worker, this.handlers, this.table, this.stages := setting, worker, handlers, table, stages;
    }

    /** The handlers work under this setting, on a store in order. */
    ghost predicate Ready()
      reads stages
    {
      stages.limits == setting.limits && stages.Valid() && StoreOk(setting.limits, stages.View())
    }

    predicate Holding()
      reads table
    {
      setting.id in table.tasks && table.tasks[setting.id].LeasedTo(worker)
    }

    /** One action of the loop's own has been performed on the table. */
    twostate predicate Performed(action: Action)
      reads table
    {
      table.View() == TaskActions.Perform(setting.config, old(table.View()), action)
    }

    method Apply(input: LockedTransition) returns (error: Option<TaskError>)
      requires SchedulerInput(worker, input)
      modifies table
      ensures Performed(WorkerTransition(worker, setting.id, input))
      ensures Follows(Transitioned(old(table.View()), setting.id, input), old(table.View()), table.View(), error)
    {
      error := table.TransitionLockedTask(setting.id, input);
    }

    /** Gives the lease back and keeps the state. */
    method Park(lastError: Option<string>, manual: bool)
      modifies table
      ensures Performed(Release(worker, setting.id, lastError, manual)) && !Holding()
    {
      var error := table.ReleaseLease(setting.id, worker, lastError, if manual then Some(true) else None);
    }

    /** Hands a failed stage to an operator, unless the lease is already gone. */
    method FailTask() returns (ghost action: Action)
      modifies table
      ensures Performed(action) && (OwnAction(setting.id, worker, action) || action == Elapse(0))
      ensures table.View() == FailedTask(old(table.View()), setting.id, worker) && !Holding()
    {
      action := Elapse(0);
      if setting.id !in table.tasks || !table.tasks[setting.id].LeasedTo(worker) {
        return;
      }
      if CanTransition(table.tasks[setting.id].state, Blocked) {
        var input := LockedTransition(Blocked, leaseOwner := Some(worker), requiresManualIntervention := Some(true),
                                      lease := ClearLease);
        var error := Apply(input);
        action := WorkerTransition(worker, setting.id, input);
      } else {
        Park(Some("stage failed"), true);
        action := Release(worker, setting.id, Some("stage failed"), true);
      }
    }

    /** The row may be worked on now: held, unflagged, with a handler, and inside its schedule. */
    predicate MayRun(visit: Visit)
      reads table
    {
      && Holding()
      && var task := table.tasks[setting.id];
         && !(task.cancelRequestedAt.Some? && CanCancel(task.state)) && !task.requiresManualIntervention
         && !visit.stopping && !visit.killSwitch && !visit.pauseNewWork
         && task.state in handlers
         && StageGate.StagePermitted(setting.config.schedule, task.state, visit.override, table.clock)
    }

    /** How a boundary that gives the lease up leaves the row: the first cause that applies decides. */
    predicate LetGo(before: Task, after: Task, visit: Visit) {
      if before.cancelRequestedAt.Some? && CanCancel(before.state) then after.state == Cancelled
      else if before.requiresManualIntervention then
        && after.requiresManualIntervention
        && after.state == if CanTransition(before.state, Blocked) then Blocked else before.state
      else if visit.stopping || visit.killSwitch || visit.pauseNewWork || before.state !in handlers then
        after == before.(lease := None)
      else if CanTransition(before.state, PausedSchedule) then
        after.state == PausedSchedule && after.resumeState == Some(before.state)
          && after.pauseReason == Some(OperatingHoursEnded)
      else after == before.(lease := None)
    }

    /**
     The checks between stages, in order: the first that applies gives the lease up; none means the handler may run.
     */
    method Boundary(visit: Visit) returns (stage: Option<TaskState>, ghost action: Action)
      modifies table
      ensures Performed(action) && (OwnAction(setting.id, worker, action) || action == Elapse(0))
      ensures stage.Some? <==> old(MayRun(visit))
      ensures stage.Some?
              ==> table.View() == old(table.View()) && Holding() && stage == Some(table.tasks[setting.id].state)
      ensures stage.None? ==> !Holding()
      ensures old(Holding()) && stage.None? ==>
        && setting.id in table.tasks
        && LetGo(old(table.tasks)[setting.id], table.tasks[setting.id], visit)
    {
      action := Elapse(0);
      if setting.id !in table.tasks || !table.tasks[setting.id].LeasedTo(worker) {
        return None, action;
      }
      var task := table.tasks[setting.id];
      if task.cancelRequestedAt.Some? && CanTransition(task.state, Cancelled) {
        var input := LockedTransition(Cancelled, leaseOwner := Some(worker), lease := ClearLease);
        var error := Apply(input);
        return None, WorkerTransition(worker, setting.id, input);
      }
      if task.requiresManualIntervention {
        action := HandOver();
        return None, action;
      }
      if visit.stopping || visit.killSwitch || visit.pauseNewWork || task.state !in handlers {
        Park(None, false);
        return None, Release(worker, setting.id, None, false);
      }
      if !StageGate.StagePermitted(setting.config.schedule, task.state, visit.override, table.clock) {
        action := PauseForSchedule();
        return None, action;
      }
      return Some(task.state), action;
    }

    /** Applies an operator's manual flag: the task is blocked where the state machine allows it, and let go. */
    method HandOver() returns (ghost action: Action)
      requires Holding()
      modifies table
      ensures Performed(action) && OwnAction(setting.id, worker, action) && !Holding()
      ensures setting.id in table.tasks
      ensures var before, after := old(table.tasks)[setting.id], table.tasks[setting.id];
        && after.requiresManualIntervention == before.requiresManualIntervention
        && after.state == if CanTransition(before.state, Blocked) then Blocked else before.state
    {
      if CanTransition(table.tasks[setting.id].state, Blocked) {
        var input := LockedTransition(Blocked, leaseOwner := Some(worker), lease := ClearLease);
        var error := Apply(input);
        action := WorkerTransition(worker, setting.id, input);
      } else {
        Park(None, false);
        action := Release(worker, setting.id, None, false);
      }
    }

    /** Pauses the task where it stands, to resume there, or only lets it go when its state cannot pause. */
    method PauseForSchedule() returns (ghost action: Action)
      requires Holding()
      modifies table
      ensures Performed(action) && OwnAction(setting.id, worker, action) && !Holding()
      ensures setting.id in table.tasks
      ensures CanTransition(old(table.tasks)[setting.id].state, PausedSchedule) ==>
        && table.tasks[setting.id].state == PausedSchedule
        && table.tasks[setting.id].resumeState == Some(old(table.tasks)[setting.id].state)
        && table.tasks[setting.id].pauseReason == Some(OperatingHoursEnded)
      ensures !CanTransition(old(table.tasks)[setting.id].state, PausedSchedule) ==>
        table.tasks[setting.id] == old(table.tasks)[setting.id].(lease := None)
    {
      var state := table.tasks[setting.id].state;
      if CanTransition(state, PausedSchedule) {
        var input := LockedTransition(PausedSchedule, resumeState := Some(state),
          pauseReason := Some(OperatingHoursEnded), leaseOwner := Some(worker), lease := ClearLease);
        var error := Apply(input);
        action := WorkerTransition(worker, setting.id, input);
      } else {
        Park(None, false);
        action := Release(worker, setting.id, None, false);
      }
    }

    /** Applies a transition; a lost lease ends the run silently, any other refusal fails the task. */
    method ApplyOrFail(input: LockedTransition) returns (applied: bool, ghost action: Action)
      requires SchedulerInput(worker, input)
      modifies table
      ensures Performed(action) && (OwnAction(setting.id, worker, action) || action == Elapse(0))
      ensures applied ==> Transitioned(old(table.View()), setting.id, input) == Ok(table.View())
      ensures table.View() == match Transitioned(old(table.View()), setting.id, input)
                              case Ok(after) => after
                              case Err(LeaseOwnership) => old(table.View())
                              case Err(_) => FailedTask(old(table.View()), setting.id, worker)
      ensures !applied || input.lease.ClearLease? ==> !Holding()
    {
      var error := Apply(input);
      action := WorkerTransition(worker, setting.id, input);
      applied := error.None?;
      if error.Some? && error != Some(LeaseOwnership) {
        action := FailTask();
      }
    }

    /** Gives the lease back until a later time. */
    method WaitUntil(until: int)
      modifies table
      ensures Performed(Defer(worker, setting.id, until, None)) && !Holding()
      ensures table.View() == Settled(old(table.View()), Deferred(old(table.View()), setting.id, worker, until, None))
    {
      var error := table.DeferTask(setting.id, worker, until, None);
    }

    /** Applies a handler's outcome; `done` ends the loop. */
    method ApplyOutcome(visit: Visit, state: TaskState, outcome: StageOutcome)
      returns (done: bool, ghost action: Action)
      requires TargetsAdmitted(outcome)
      modifies table
      ensures Performed(action) && (OwnAction(setting.id, worker, action) || action == Elapse(0))
      ensures done && !visit.leaseLost ==> !Holding()
      ensures visit.leaseLost ==> done && table.View() == old(table.View())
      ensures !visit.leaseLost && (outcome.Interrupted? ==> visit.aborted) ==>
        table.View() == OutcomeApplied(setting, old(table.View()), worker, state, outcome)
      ensures !visit.leaseLost && outcome.Interrupted? && !visit.aborted ==>
        table.View() == FailedTask(old(table.View()), setting.id, worker)
      ensures outcome.Interrupted? && visit.aborted && !visit.leaseLost ==> !done
    {
      hide Transitioned, FailedTask, Deferred;
      action := Elapse(0);
      if visit.leaseLost {
        return true, action;
      }
      match outcome {
        case Advance(to, increment, manual) =>
          var applied;
          applied, action := ApplyOrFail(LockedTransition(to, leaseOwner := Some(worker), increment := increment,
            requiresManualIntervention := if manual then Some(true) else None));
          done := !applied;
        case PauseLimit(reason, resumeAfter) =>
          var applied;
          applied, action := ApplyOrFail(LockedTransition(PausedLimit, resumeState := Some(state),
            pauseReason := Some(reason),
            resumeAfter := Some(GetOr(resumeAfter, table.clock + setting.usageLimitPauseMs)),
            leaseOwner := Some(worker), lease := ClearLease));
          done := true;
        case Wait(until) =>
          WaitUntil(until);
          return true, Defer(worker, setting.id, until, None);
        case Interrupted =>
          if visit.aborted {
            return false, action;
          }
          action := FailTask();
          done := true;
        case Threw =>
          action := FailTask();
          done := true;
      }
    }

    /** What everybody else does to the table while the handler runs. */
    method Meanwhile(actions: seq<Action>)
      modifies table
      ensures table.View() == PerformAll(setting.config, old(table.View()), actions)
    {
      var db := PerformAll(setting.config, Db(table.tasks, table.log, table.clock), actions);
      table.tasks, table.log, table.clock := db.tasks, db.log, db.clock;
    }

    /** The action is the loop's own, or was scripted for somebody else. */
    ghost predicate Accounted(script: seq<Visit>, action: Action) {
      || OwnAction(setting.id, worker, action) || action == Elapse(0)
      || exists j :: 0 <= j < |script| && action in script[j].meanwhile
    }

    ghost predicate AllAccounted(script: seq<Visit>, actions: seq<Action>) {
      forall i :: 0 <= i < |actions| ==> Accounted(script, actions[i])
    }

    /** Runs the handler on the row as the boundary found it. */
    method Handle(visit: Visit) returns (outcome: StageOutcome, ghost run: StageRun)
      requires Ready() && Holding()
      modifies stages
      ensures Ready() && TargetsAdmitted(outcome)
      ensures RunInOrder(setting.limits, run) && run.outcome == outcome && run.task == table.tasks[setting.id]
    {
      hide StagePlan, StoreOk;
      var moved;
      var task := table.tasks[setting.id];
      outcome, moved := stages.RunStage(task, visit.input);
      run := StageRun(task, Found(visit.input, moved), outcome, stages.base, stages.trace);
      PlansAdmitted(setting.limits, task, stages.base, Found(visit.input, moved));
    }

    /** One pass: boundary, handler, outcome. */
    method RunVisit(ghost script: seq<Visit>, ghost j: nat, visit: Visit)
      returns (done: bool, ghost actions: seq<Action>, ghost runs: seq<StageRun>)
      requires j < |script| && script[j] == visit && Ready()
      modifies table, stages
      ensures table.View() == PerformAll(setting.config, old(table.View()), actions) && AllAccounted(script, actions)
      ensures Ready() && AllRunsInOrder(runs)
      ensures done && !visit.leaseLost ==> !Holding()
    {
      hide StoreOk, RunInOrder;
      ghost var start := table.View();
      var stage, boundary := Boundary(visit);
      OnePerformed(setting.config, start, boundary);
      actions, runs := [boundary], [];
      if stage.None? {
        return true, actions, runs;
      }
      ghost var run;
      var outcome;
      outcome, run := Handle(visit);
      runs := [run];
      PerformedTogether(setting.config, start, actions, visit.meanwhile);
      Meanwhile(visit.meanwhile);
      actions := actions + visit.meanwhile;
      ghost var applied;
      ghost var handled := table.View();
      done, applied := ApplyOutcome(visit, stage.value, outcome);
      OnePerformed(setting.config, handled, applied);
      PerformedTogether(setting.config, start, actions, [applied]);
      actions := actions + [applied];
    }

    ghost predicate AllRunsInOrder(runs: seq<StageRun>) {
      forall i :: 0 <= i < |runs| ==> RunInOrder(setting.limits, runs[i])
    }

    /**
     Runs a claimed task until its lease is given up or the script ends. All the loop does to the table is accounted for
     by its own admitted actions, every state its handlers pass through is in order, and a loop that ends has let the
     task go.
     */
    method RunTask(script: seq<Visit>) returns (done: bool, ghost actions: seq<Action>, ghost runs: seq<StageRun>)
      requires Ready()
      modifies table, stages
      ensures table.View() == PerformAll(setting.config, old(table.View()), actions) && AllAccounted(script, actions)
      ensures Ready() && AllRunsInOrder(runs)
      ensures done && (forall j :: 0 <= j < |script| ==> !script[j].leaseLost) ==> !Holding()
    {
      hide StoreOk, RunInOrder;
      done, actions, runs := false, [], [];
      var i := 0;
      while i < |script| && !done
        invariant 0 <= i <= |script|
        invariant table.View() == PerformAll(setting.config, old(table.View()), actions)
        invariant AllAccounted(script, actions)
        invariant Ready() && AllRunsInOrder(runs)
        invariant done && (forall j :: 0 <= j < |script| ==> !script[j].leaseLost) ==> !Holding()
        decreases |script| - i
      {
        ghost var more, handled;
        ghost var before := actions;
        done, more, handled := RunVisit(script, i, script[i]);
        PerformedTogether(setting.config, old(table.View()), before, more);
        actions, runs := before + more, runs + handled;
        i := i + 1;
      }
    }
  }
}
