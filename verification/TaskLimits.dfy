/** Concurrency limits, the daily start budget, and dependencies, in every run of the task table. */
module TaskLimits {
  import opened Wrappers
  import opened Domain
  import opened Tasks
  import opened TaskActions
  import opened TaskRuns
  import StageGate

  // ------------------------------------------------------------------ claims

  lemma ClaimedLane(config: Config, db: Db, action: Action)
    requires action.Claim? && ClaimsRow(config, db, action)
    ensures action.chosen in db.tasks && db.tasks[action.chosen].lease.None?
    ensures var after := Perform(config, db, action);
      && after.tasks.Keys == db.tasks.Keys
      && after.tasks[action.chosen].LeasedTo(action.worker)
      && ClaimLaneOf(after.tasks[action.chosen].state) == action.lane
      && after.tasks[action.chosen].repositories == db.tasks[action.chosen].repositories
      && forall id :: id in db.tasks && id != action.chosen ==> after.tasks[id] == db.tasks[id]
  {
    var input := ClaimInputNow(config, db, action.worker, action.lane, action.handlers, action.override);
    var task := db.tasks[action.chosen];
    assert Candidate(db, input, action.chosen) && Eligible(db, input, task);
    assert task.state == Queued ==> action.lane.ExecutionLane?;
    assert IsPause(task.state) ==> action.lane.ExecutionLane?;
  }

  /**
   A claim leaves the total number of leases in its lane within the lane's limit, the leases that touch each of the
   task's repositories within that repository's limit, and the claimed task in the lane it was claimed for.
   */
  lemma ClaimRespectsLimits(config: Config, db: Db, action: Action)
    requires action.Claim? && ClaimsRow(config, db, action)
    ensures var after := Perform(config, db, action);
      && LeasedIn(after, action.lane) == LeasedIn(db, action.lane) + {action.chosen}
      && |LeasedIn(after, action.lane)| <= LaneLimit(config, action.lane)
      && (action.lane.ExecutionLane? ==>
            forall repository :: repository in config.repositoryLimits
                                 && repository in db.tasks[action.chosen].repositories
              ==> |LeasedTouching(after, ExecutionLane, repository)| <= config.repositoryLimits[repository])
  {
    hide Perform, Claimed, Eligible, MayStart, ClaimedBefore;
    ClaimedLane(config, db, action);
    var after := Perform(config, db, action);
    var input := ClaimInputNow(config, db, action.worker, action.lane, action.handlers, action.override);
    assert HasCapacity(db, input) && Candidate(db, input, action.chosen);
    assert LeasedIn(after, action.lane) == LeasedIn(db, action.lane) + {action.chosen};
    if action.lane.ExecutionLane? {
      forall repository | repository in config.repositoryLimits && repository in db.tasks[action.chosen].repositories
        ensures |LeasedTouching(after, ExecutionLane, repository)| <= config.repositoryLimits[repository]
      {
        assert !TouchesSaturated(db, input, action.chosen);
        assert |LeasedTouching(db, ExecutionLane, repository)| < config.repositoryLimits[repository];
        assert LeasedTouching(after, ExecutionLane, repository)
            == LeasedTouching(db, ExecutionLane, repository) + {action.chosen};
      }
    }
  }

  /**
   The table with a history variable: the lane each leased task was claimed for, dropped for good when the lease ends or
   when the task advances into the other lane while leased.
   */
  datatype World = World(db: Db, home: map<TaskId, ClaimLane>)

  function StillHome(db: Db, home: map<TaskId, ClaimLane>): map<TaskId, ClaimLane> {
    map id | id in home && id in db.tasks && db.tasks[id].lease.Some?
             && ClaimLaneOf(db.tasks[id].state) == home[id] :: home[id]
  }

  function Advance(config: Config, world: World, action: Action): World {
    var after := Perform(config, world.db, action);
    var kept := StillHome(after, world.home);
    World(after, if action.Claim? && ClaimsRow(config, world.db, action) then kept[action.chosen := action.lane]
                 else kept)
  }

  function AdvanceAll(config: Config, world: World, actions: seq<Action>): World {
    if |actions| == 0 then world
    else Advance(config, AdvanceAll(config, world, actions[..|actions| - 1]), actions[|actions| - 1])
  }

  /** Leased tasks that have not crossed lanes since their claim. */
  function AtHome(world: World, lane: ClaimLane): set<TaskId> {
    set id | id in world.home && world.home[id] == lane
  }

  function AtHomeTouching(world: World, repository: Repository): set<TaskId> {
    set id | id in AtHome(world, ExecutionLane) && id in world.db.tasks && repository in world.db.tasks[id].repositories
  }

  ghost predicate WithinLimits(config: Config, world: World) {
    && (forall id :: id in world.home ==>
          id in world.db.tasks && world.db.tasks[id].lease.Some?
            && ClaimLaneOf(world.db.tasks[id].state) == world.home[id])
    && (forall lane :: |AtHome(world, lane)| <= LaneLimit(config, lane))
    && (forall repository :: repository in config.repositoryLimits
          ==> |AtHomeTouching(world, repository)| <= config.repositoryLimits[repository])
  }

  lemma IdentitiesKept(config: Config, db: Db, action: Action, id: TaskId)
    requires id in db.tasks
    ensures id in Perform(config, db, action).tasks && SameIdentity(db.tasks[id], Perform(config, db, action).tasks[id])
  {
    PerformShape(config, db, action);
  }

  lemma LaneLimitStep(config: Config, world: World, action: Action, lane: ClaimLane)
    requires WithinLimits(config, world)
    ensures |AtHome(Advance(config, world, action), lane)| <= LaneLimit(config, lane)
  {
    var after := Advance(config, world, action);
    if action.Claim? && ClaimsRow(config, world.db, action) && action.lane == lane {
      ClaimRespectsLimits(config, world.db, action);
      ClaimedLane(config, world.db, action);
      SubsetSize(AtHome(after, lane), LeasedIn(after.db, lane));
    } else {
      if action.Claim? && ClaimsRow(config, world.db, action) {
        ClaimedLane(config, world.db, action);
        assert action.chosen !in world.home;
      }
      SubsetSize(AtHome(after, lane), AtHome(world, lane));
    }
  }

  lemma RepositoryLimitStep(config: Config, world: World, action: Action, repository: Repository)
    requires WithinLimits(config, world) && repository in config.repositoryLimits
    ensures |AtHomeTouching(Advance(config, world, action), repository)| <= config.repositoryLimits[repository]
  {
    var after := Advance(config, world, action);
    forall id | id in world.db.tasks
      ensures id in after.db.tasks && SameIdentity(world.db.tasks[id], after.db.tasks[id])
    {
      IdentitiesKept(config, world.db, action, id);
    }
    if action.Claim? && ClaimsRow(config, world.db, action) && action.lane.ExecutionLane?
       && repository in world.db.tasks[action.chosen].repositories {
      ClaimRespectsLimits(config, world.db, action);
      ClaimedLane(config, world.db, action);
      SubsetSize(AtHomeTouching(after, repository), LeasedTouching(after.db, ExecutionLane, repository));
    } else {
      SubsetSize(AtHomeTouching(after, repository), AtHomeTouching(world, repository));
    }
  }

  lemma LimitsStep(config: Config, world: World, action: Action)
    requires WithinLimits(config, world)
    ensures WithinLimits(config, Advance(config, world, action))
  {
    forall lane ensures |AtHome(Advance(config, world, action), lane)| <= LaneLimit(config, lane) {
      LaneLimitStep(config, world, action, lane);
    }
    forall repository | repository in config.repositoryLimits
      ensures |AtHomeTouching(Advance(config, world, action), repository)| <= config.repositoryLimits[repository]
    {
      RepositoryLimitStep(config, world, action, repository);
    }
    if action.Claim? && ClaimsRow(config, world.db, action) {
      ClaimedLane(config, world.db, action);
    }
  }

  /**
   For any interleaving of workers, the leased tasks that have not crossed lanes since their claim never exceed their
   lane's limit, nor, for execution tasks, the limit of any repository.
   */
  lemma {:induction false} LimitsHoldInEveryRun(config: Config, start: Db, actions: seq<Action>)
    requires Initial(start)
    ensures WithinLimits(config, AdvanceAll(config, World(start, map[]), actions))
    ensures AdvanceAll(config, World(start, map[]), actions).db == PerformAll(config, start, actions)
  {
    var world := World(start, map[]);
    if |actions| == 0 {
      assert forall lane :: AtHome(world, lane) == {};
      assert forall repository :: AtHomeTouching(world, repository) == {};
    } else {
      LimitsHoldInEveryRun(config, start, actions[..|actions| - 1]);
      LimitsStep(config, AdvanceAll(config, world, actions[..|actions| - 1]), actions[|actions| - 1]);
    }
  }

  /** The holder of a task from the other lane moves it into `lane` without giving up its lease, and is accepted. */
  predicate CrossesInto(db: Db, action: Action, lane: ClaimLane) {
    && action.WorkerTransition? && SchedulerInput(action.worker, action.input) && action.input.lease.KeepLease?
    && action.id in db.tasks && db.tasks[action.id].LeasedTo(action.worker)
    && ClaimLaneOf(db.tasks[action.id].state) != lane && ClaimLaneOf(action.input.to) == lane
    && CheckTransition(db.tasks[action.id].state, action.input.to, action.input.resumeState).None?
  }

  lemma CrossingAdds(config: Config, db: Db, action: Action, lane: ClaimLane)
    requires CrossesInto(db, action, lane)
    ensures LeasedIn(Perform(config, db, action), lane) == LeasedIn(db, lane) + {action.id}
  {
  }

  lemma OnlyClaimsAndCrossingsAdd(config: Config, db: Db, action: Action, lane: ClaimLane)
    requires !CrossesInto(db, action, lane)
    requires action.Claim? ==> !ClaimsRow(config, db, action) || action.lane != lane
    ensures LeasedIn(Perform(config, db, action), lane) <= LeasedIn(db, lane)
  {
    var after := Perform(config, db, action);
    PerformShape(config, db, action);
    if action.Claim? && ClaimsRow(config, db, action) {
      ClaimedLane(config, db, action);
    }
  }

  /**
   A lane goes over its limit in one step if and only if it was full and the holder of a leased task from the other lane
   advances into it.
   */
  lemma LaneOverfillsExactlyByCrossing(config: Config, db: Db, action: Action, lane: ClaimLane)
    requires |LeasedIn(db, lane)| <= LaneLimit(config, lane)
    ensures |LeasedIn(Perform(config, db, action), lane)| > LaneLimit(config, lane)
       <==> |LeasedIn(db, lane)| == LaneLimit(config, lane) && CrossesInto(db, action, lane)
  {
    hide Perform;
    if CrossesInto(db, action, lane) {
      CrossingAdds(config, db, action, lane);
    } else if action.Claim? && ClaimsRow(config, db, action) && action.lane == lane {
      ClaimRespectsLimits(config, db, action);
    } else {
      OnlyClaimsAndCrossingsAdd(config, db, action, lane);
      SubsetSize(LeasedIn(Perform(config, db, action), lane), LeasedIn(db, lane));
    }
  }

  // ------------------------------------------------------------------ daily start budget

  /** Recorded task starts after `from` and up to `until`. */
  function StartsWithin(log: seq<Transition>, from: int, until: int): nat {
    if |log| == 0 then 0
    else
      var last := log[|log| - 1];
      StartsWithin(log[..|log| - 1], from, until) + if IsStart(last) && from < last.createdAt <= until then 1 else 0
  }

  /** Only a claim starts a queued task, and it does so within the budget. */
  lemma StartsAreBudgetedClaims(config: Config, db: Db, action: Action)
    requires var after := Perform(config, db, action);
      |after.log| > |db.log| && IsStart(after.log[|after.log| - 1])
    ensures action.Claim? && ClaimsRow(config, db, action)
    ensures MayStart(db, ClaimInputNow(config, db, action.worker, action.lane, action.handlers, action.override))
    ensures BlockersCompleted(db, db.tasks[action.chosen])
    ensures Perform(config, db, action).log[|db.log|].taskId == action.chosen
  {
    PerformShape(config, db, action);
  }

  predicate BudgetKept(log: seq<Transition>, budget: int, clock: int) {
    && (forall i, j :: 0 <= i < j < |log| ==> log[i].createdAt <= log[j].createdAt)
    && (forall i :: 0 <= i < |log| ==> log[i].createdAt <= clock)
    && (forall k :: 0 <= k < |log| && IsStart(log[k])
          ==> StartsSince(log[..k + 1], log[k].createdAt - DAY_MS) <= budget)
  }

  lemma BudgetEntry(log: seq<Transition>, entry: Transition, budget: int)
    requires BudgetKept(log, budget, entry.createdAt)
    requires IsStart(entry) ==> StartsSince(log, entry.createdAt - DAY_MS) < budget
    ensures BudgetKept(log + [entry], budget, entry.createdAt)
  {
    var longer := log + [entry];
    assert longer[..|log|] == log;
    forall k | 0 <= k < |longer| && IsStart(longer[k])
      ensures StartsSince(longer[..k + 1], longer[k].createdAt - DAY_MS) <= budget
    {
      if k < |log| {
        assert longer[..k + 1] == log[..k + 1];
      } else {
        assert longer[..k + 1] == longer;
      }
    }
  }

  lemma BudgetShape(before: Db, after: Db, target: Option<TaskId>, budget: int)
    requires StepShape(before, after, target) && BudgetKept(before.log, budget, before.clock)
    requires (|after.log| > |before.log| && IsStart(after.log[|after.log| - 1])) ==>
               StartsSince(before.log, before.clock - DAY_MS) < budget
    ensures BudgetKept(after.log, budget, after.clock)
  {
    if |after.log| > |before.log| {
      BudgetEntry(before.log, after.log[|after.log| - 1], budget);
    }
  }

  lemma BudgetStep(config: Config, db: Db, action: Action, budget: int)
    requires config.rollout.maxNewTasksPerDay == Some(budget)
    requires BudgetKept(db.log, budget, db.clock)
    ensures BudgetKept(Perform(config, db, action).log, budget, Perform(config, db, action).clock)
  {
    PerformShape(config, db, action);
    StartHasBudget(config, db, action, budget);
    BudgetShape(db, Perform(config, db, action), Target(action), budget);
  }

  lemma StartHasBudget(config: Config, db: Db, action: Action, budget: int)
    requires config.rollout.maxNewTasksPerDay == Some(budget)
    ensures var after := Perform(config, db, action);
      |after.log| > |db.log| && IsStart(after.log[|after.log| - 1]) ==> StartsSince(db.log, db.clock - DAY_MS) < budget
  {
    var after := Perform(config, db, action);
    if |after.log| > |db.log| && IsStart(after.log[|after.log| - 1]) {
      StartsAreBudgetedClaims(config, db, action);
    }
  }

  lemma {:induction false} BudgetInEveryRun(config: Config, start: Db, actions: seq<Action>)
    requires Initial(start) && config.rollout.maxNewTasksPerDay.Some?
    ensures BudgetKept(PerformAll(config, start, actions).log, config.rollout.maxNewTasksPerDay.value,
                       PerformAll(config, start, actions).clock)
  {
    if |actions| > 0 {
      BudgetInEveryRun(config, start, actions[..|actions| - 1]);
      BudgetStep(config, PerformAll(config, start, actions[..|actions| - 1]), actions[|actions| - 1],
                 config.rollout.maxNewTasksPerDay.value);
    }
  }

  lemma {:induction false} WithinIsSince(log: seq<Transition>, from: int, until: int, since: int)
    requires since <= from
    ensures StartsWithin(log, from, until) <= StartsSince(log, since)
  {
    if |log| > 0 {
      WithinIsSince(log[..|log| - 1], from, until, since);
    }
  }

  lemma BudgetOfPrefix(log: seq<Transition>, budget: int, clock: int)
    requires BudgetKept(log, budget, clock) && |log| > 0
    ensures BudgetKept(log[..|log| - 1], budget, clock)
  {
    var shorter := log[..|log| - 1];
    forall k | 0 <= k < |shorter| && IsStart(shorter[k])
      ensures StartsSince(shorter[..k + 1], shorter[k].createdAt - DAY_MS) <= budget
    {
      assert shorter[..k + 1] == log[..k + 1];
    }
  }

  lemma {:induction false} BudgetInAnyDay(log: seq<Transition>, budget: int, clock: int, from: int)
    requires BudgetKept(log, budget, clock) && budget >= 0
    ensures StartsWithin(log, from, from + DAY_MS) <= budget
  {
    if |log| > 0 {
      var last := |log| - 1;
      if IsStart(log[last]) && from < log[last].createdAt <= from + DAY_MS {
        WithinIsSince(log, from, from + DAY_MS, log[last].createdAt - DAY_MS);
        assert log[..last + 1] == log;
      } else {
        BudgetOfPrefix(log, budget, clock);
        BudgetInAnyDay(log[..last], budget, clock, from);
      }
    }
  }

  /**
   In every run and every 24 hours, counted from just after any instant, at most the configured number of tasks start,
   across all workers.
   */
  lemma DailyStartsWithinBudget(config: Config, start: Db, actions: seq<Action>, from: int)
    requires Initial(start)
    requires config.rollout.maxNewTasksPerDay.Some? && config.rollout.maxNewTasksPerDay.value >= 0
    ensures StartsWithin(PerformAll(config, start, actions).log, from, from + DAY_MS)
         <= config.rollout.maxNewTasksPerDay.value
  {
    BudgetInEveryRun(config, start, actions);
    BudgetInAnyDay(PerformAll(config, start, actions).log, config.rollout.maxNewTasksPerDay.value,
                   PerformAll(config, start, actions).clock, from);
  }

  /** Starts recorded at one instant. */
  function StartsAt(log: seq<Transition>, instant: int): nat {
    StartsWithin(log, instant - 1, instant)
  }

  /** Starts of a day that counts both of its end instants. */
  function StartsOfClosedDay(log: seq<Transition>, first: int): nat {
    StartsWithin(log, first - 1, first + DAY_MS)
  }

  /**
   Entry `k` is a start exactly a day after `first`, although the starts before it, had the count included those at
   `first`, already filled the budget.
   */
  predicate StartsOnFullDay(log: seq<Transition>, k: nat, first: int, budget: int) {
    && k < |log| && IsStart(log[k]) && log[k].createdAt == first + DAY_MS
    && StartsSince(log[..k], first - 1) >= budget
  }

  lemma {:induction false} StartsSplit(log: seq<Transition>, from: int, middle: int, until: int)
    requires from <= middle <= until
    ensures StartsWithin(log, from, until) == StartsWithin(log, from, middle) + StartsWithin(log, middle, until)
  {
    if |log| > 0 {
      StartsSplit(log[..|log| - 1], from, middle, until);
    }
  }

  lemma {:induction false} NothingLater(log: seq<Transition>, from: int, until: int)
    requires forall i :: 0 <= i < |log| ==> log[i].createdAt <= until
    ensures StartsWithin(log, from, until) == StartsSince(log, from)
  {
    if |log| > 0 {
      NothingLater(log[..|log| - 1], from, until);
    }
  }

  lemma {:induction false} PrefixCountsNoMore(log: seq<Transition>, k: nat, from: int, until: int)
    requires k <= |log|
    ensures StartsWithin(log[..k], from, until) <= StartsWithin(log, from, until)
  {
    if k < |log| {
      PrefixCountsNoMore(log[..|log| - 1], k, from, until);
      assert log[..|log| - 1][..k] == log[..k];
    } else {
      assert log[..k] == log;
    }
  }

  /** The last start of a closed day over its budget falls on the day's last instant. */
  lemma {:induction false} LastStartOfFullDay(log: seq<Transition>, budget: int, clock: int, first: int)
    returns (k: nat)
    requires BudgetKept(log, budget, clock) && budget >= 0 && StartsOfClosedDay(log, first) > budget
    ensures StartsOnFullDay(log, k, first, budget)
  {
    var last := |log| - 1;
    BudgetOfPrefix(log, budget, clock);
    if IsStart(log[last]) && first - 1 < log[last].createdAt <= first + DAY_MS {
      k := last;
      NothingLater(log[..last], first - 1, first + DAY_MS);
      if log[last].createdAt < first + DAY_MS {
        NothingLater(log, first - 1, first + DAY_MS);
        NothingLater(log, first - 1, first - 1 + DAY_MS);
        BudgetInAnyDay(log, budget, clock, first - 1);
        assert false;
      }
    } else {
      k := LastStartOfFullDay(log[..last], budget, clock, first);
      assert log[..last][..k] == log[..k];
    }
  }

  lemma FullDayExceeds(log: seq<Transition>, k: nat, budget: int, clock: int, first: int)
    requires BudgetKept(log, budget, clock) && StartsOnFullDay(log, k, first, budget)
    ensures StartsOfClosedDay(log, first) > budget
  {
    NothingLater(log[..k], first - 1, first + DAY_MS);
    assert log[..k + 1][..k] == log[..k];
    PrefixCountsNoMore(log, k + 1, first - 1, first + DAY_MS);
  }

  /**
   In every run: a day that counts both of its end instants exceeds the budget if and only if a start was recorded at
   its last instant when the starts from its first instant on, that instant included, already filled the budget. The
   claim's query excludes that instant. Then tasks start at both ends of the day, and the excess is at most the number
   of starts at either end.
   */
  lemma ClosedDayExceedsExactlyWhen(config: Config, start: Db, actions: seq<Action>, first: int)
    requires Initial(start)
    requires config.rollout.maxNewTasksPerDay.Some? && config.rollout.maxNewTasksPerDay.value >= 0
    ensures var log, budget := PerformAll(config, start, actions).log, config.rollout.maxNewTasksPerDay.value;
      && (StartsOfClosedDay(log, first) > budget <==> exists k: nat :: StartsOnFullDay(log, k, first, budget))
      && (StartsOfClosedDay(log, first) > budget ==> StartsAt(log, first) > 0 && StartsAt(log, first + DAY_MS) > 0)
      && StartsOfClosedDay(log, first) <= budget + StartsAt(log, first)
      && StartsOfClosedDay(log, first) <= budget + StartsAt(log, first + DAY_MS)
  {
    hide StartsOnFullDay;
    var after, budget := PerformAll(config, start, actions), config.rollout.maxNewTasksPerDay.value;
    var log := after.log;
    BudgetInEveryRun(config, start, actions);
    StartsSplit(log, first - 1, first, first + DAY_MS);
    StartsSplit(log, first - 1, first + DAY_MS - 1, first + DAY_MS);
    DailyStartsWithinBudget(config, start, actions, first);
    DailyStartsWithinBudget(config, start, actions, first - 1);
    if StartsOfClosedDay(log, first) > budget {
      var k := LastStartOfFullDay(log, budget, after.clock, first);
    }
    if exists k: nat :: StartsOnFullDay(log, k, first, budget) {
      var k: nat :| StartsOnFullDay(log, k, first, budget);
      FullDayExceeds(log, k, budget, after.clock, first);
    }
  }

  /** One claim of a queued task, at a moment when nothing else is in its way. */
  lemma OpenClaim(config: Config, db: Db, id: TaskId, worker: Worker)
    requires config.leaseDurationMs > 0 && config.repositoryLimits == map[] && config.rollout.repositories.None?
    requires config.rollout.maxNewTasksPerDay.Some?
    requires StartsSince(db.log, db.clock - DAY_MS) < config.rollout.maxNewTasksPerDay.value
    requires |LeasedIn(db, ExecutionLane)| < config.executionLimit
    requires id in db.tasks && db.tasks[id] == NewTask(db.tasks[id].createdAt, {}, {})
    requires forall other :: other in db.tasks && other != id ==> db.tasks[other].lease.Some?
    ensures var after := Perform(config, db, Claim(worker, ExecutionLane, {Analyzing}, StageGate.Enabled, {}, id));
      && after.log == db.log + [Transition(id, Queued, Analyzing, db.clock)]
      && after.clock == db.clock
      && after.tasks.Keys == db.tasks.Keys
      && after.tasks[id].lease.Some?
      && LeasedIn(after, ExecutionLane) == LeasedIn(db, ExecutionLane) + {id}
      && forall other :: other in db.tasks && other != id ==> after.tasks[other] == db.tasks[other]
  {
    var input := ClaimInputNow(config, db, worker, ExecutionLane, {Analyzing}, StageGate.Enabled);
    assert StageGate.StagePermitted(config.schedule, Analyzing, StageGate.Enabled, db.clock);
    assert Analyzing in input.work.scheduleResumeStates;
    assert MayStart(db, input);
    assert Candidate(db, input, id);
    assert Selects(db, input, {}, id);
  }

  lemma RunNext(config: Config, start: Db, actions: seq<Action>, action: Action)
    ensures PerformAll(config, start, actions + [action]) == Perform(config, PerformAll(config, start, actions), action)
  {
    assert (actions + [action])[..|actions|] == actions;
  }

  function StartAction(id: TaskId, worker: Worker): Action {
    Claim(worker, ExecutionLane, {Analyzing}, StageGate.Enabled, {}, id)
  }

  predicate TwoSlotsOnePerDay(config: Config) {
    && config.leaseDurationMs > 0 && config.repositoryLimits == map[] && config.rollout == Rollout(None, Some(1))
    && config.executionLimit == 2
  }

  lemma FirstStart(config: Config, id: TaskId, later: TaskId, worker: Worker)
    requires TwoSlotsOnePerDay(config) && id != later
    ensures var started := Perform(config, Db(map[id := NewTask(0, {}, {})], [], 0), StartAction(id, worker));
      && started.tasks.Keys == {id} && started.tasks[id].lease.Some? && started.clock == 0
      && LeasedIn(started, ExecutionLane) == {id}
      && started.log == [Transition(id, Queued, Analyzing, 0)]
  {
    var start := Db(map[id := NewTask(0, {}, {})], [], 0);
    assert LeasedIn(start, ExecutionLane) == {};
    OpenClaim(config, start, id, worker);
  }

  lemma SecondStart(config: Config, started: Db, id: TaskId, later: TaskId, worker: Worker)
    requires TwoSlotsOnePerDay(config) && id != later
    requires started.tasks.Keys == {id} && started.tasks[id].lease.Some? && started.clock == 0
    requires LeasedIn(started, ExecutionLane) == {id} && started.log == [Transition(id, Queued, Analyzing, 0)]
    ensures var grown := Perform(config, Perform(config, started, Elapse(DAY_MS)), Create(later, {}, {}));
      Perform(config, grown, StartAction(later, worker)).log
          == started.log + [Transition(later, Queued, Analyzing, DAY_MS)]
  {
    var grown := Perform(config, Perform(config, started, Elapse(DAY_MS)), Create(later, {}, {}));
    assert grown.log[..0] == [] && StartsSince(grown.log, 0) == 0;
    assert LeasedIn(grown, ExecutionLane) == LeasedIn(started, ExecutionLane);
    OpenClaim(config, grown, later, worker);
  }

  lemma FourActions(config: Config, start: Db, a: Action, b: Action, c: Action, d: Action)
    ensures PerformAll(config, start, [a, b, c, d])
         == Perform(config, Perform(config, Perform(config, Perform(config, start, a), b), c), d)
  {
    assert [a] == [] + [a] && [a, b] == [a] + [b] && [a, b, c] == [a, b] + [c] && [a, b, c, d] == [a, b, c] + [d];
    RunNext(config, start, [], a);
    RunNext(config, start, [a], b);
    RunNext(config, start, [a, b], c);
    RunNext(config, start, [a, b, c], d);
  }

  lemma TwoStartsADayApart(id: TaskId, later: TaskId)
    ensures StartsOfClosedDay([Transition(id, Queued, Analyzing, 0), Transition(later, Queued, Analyzing, DAY_MS)], 0)
            == 2
  {
    var log := [Transition(id, Queued, Analyzing, 0), Transition(later, Queued, Analyzing, DAY_MS)];
    assert log[..1] == [Transition(id, Queued, Analyzing, 0)] && log[..1][..0] == [];
    assert StartsWithin(log[..1], -1, DAY_MS) == 1;
  }

  /**
   The budget does not hold for a day that counts both of its end instants: with a budget of one, a start and another
   start exactly 24 hours later are both admitted.
   */
  lemma ClosedDayCanHoldOneMore(config: Config, id: TaskId, later: TaskId, worker: Worker)
    requires TwoSlotsOnePerDay(config) && id != later
    ensures var start := Db(map[id := NewTask(0, {}, {})], [], 0);
      && Initial(start)
      && StartsOfClosedDay(PerformAll(config, start,
           [StartAction(id, worker), Elapse(DAY_MS), Create(later, {}, {}), StartAction(later, worker)]).log, 0) == 2
  {
    hide StartsOfClosedDay, Perform, PerformAll, LeasedIn, StartAction;
    var start := Db(map[id := NewTask(0, {}, {})], [], 0);
    FourActions(config, start, StartAction(id, worker), Elapse(DAY_MS), Create(later, {}, {}),
                StartAction(later, worker));
    FirstStart(config, id, later, worker);
    SecondStart(config, Perform(config, start, StartAction(id, worker)), id, later, worker);
    TwoStartsADayApart(id, later);
    assert [Transition(id, Queued, Analyzing, 0)] + [Transition(later, Queued, Analyzing, DAY_MS)]
        == [Transition(id, Queued, Analyzing, 0), Transition(later, Queued, Analyzing, DAY_MS)];
  }

  // ------------------------------------------------------------------ a lane over its limit

  lemma {:induction false} PerformJoined(config: Config, start: Db, first: seq<Action>, second: seq<Action>)
    ensures PerformAll(config, start, first + second) == PerformAll(config, PerformAll(config, start, first), second)
  {
    if |second| == 0 {
      assert first + second == first;
    } else {
      assert (first + second)[..|first + second| - 1] == first + second[..|second| - 1];
      PerformJoined(config, start, first, second[..|second| - 1]);
    }
  }

  function AdvanceAction(id: TaskId, worker: Worker, to: TaskState): Action {
    WorkerTransition(worker, id, LockedTransition(to, leaseOwner := Some(worker)))
  }

  /** One task has moved to `state` under its lease, and nothing has started since. */
  predicate MovedTo(before: Db, after: Db, id: TaskId, worker: Worker, state: TaskState, since: int) {
    && id in after.tasks && after.tasks[id].LeasedTo(worker) && after.tasks[id].state == state
    && after.tasks == before.tasks[id := after.tasks[id]] && after.clock == before.clock
    && StartsSince(after.log, since) == StartsSince(before.log, since)
  }

  lemma AdvancesTask(config: Config, before: Db, db: Db, id: TaskId, worker: Worker, from: TaskState, to: TaskState,
                     since: int)
    requires MovedTo(before, db, id, worker, from, since)
    requires from != Queued && CanTransition(from, to) && to in OUTCOME_TARGETS
    ensures MovedTo(before, Perform(config, db, AdvanceAction(id, worker, to)), id, worker, to, since)
  {
    var after := Perform(config, db, AdvanceAction(id, worker, to));
    assert after.log[..|db.log|] == db.log;
  }

  function StepsToReview(id: TaskId, worker: Worker): seq<Action> {
    [AdvanceAction(id, worker, Ready), AdvanceAction(id, worker, Implementing), AdvanceAction(id, worker, Testing),
     AdvanceAction(id, worker, Reviewing)]
  }

  lemma ReachesReview(config: Config, db: Db, id: TaskId, worker: Worker, since: int)
    requires MovedTo(db, db, id, worker, Analyzing, since)
    ensures MovedTo(db, PerformAll(config, db, StepsToReview(id, worker)), id, worker, Reviewing, since)
  {
    hide Perform, MovedTo, PerformAll, AdvanceAction;
    var ready := Perform(config, db, AdvanceAction(id, worker, Ready));
    var implementing := Perform(config, ready, AdvanceAction(id, worker, Implementing));
    var testing := Perform(config, implementing, AdvanceAction(id, worker, Testing));
    FourActions(config, db, AdvanceAction(id, worker, Ready), AdvanceAction(id, worker, Implementing),
                AdvanceAction(id, worker, Testing), AdvanceAction(id, worker, Reviewing));
    AdvancesTask(config, db, db, id, worker, Analyzing, Ready, since);
    AdvancesTask(config, db, ready, id, worker, Ready, Implementing, since);
    AdvancesTask(config, db, implementing, id, worker, Implementing, Testing, since);
    AdvancesTask(config, db, testing, id, worker, Testing, Reviewing, since);
  }

  predicate OneOfEach(config: Config) {
    && config.leaseDurationMs > 0 && config.repositoryLimits == map[] && config.rollout == Rollout(None, Some(2))
    && config.executionLimit == 1 && config.deliveryLimit == 1
  }

  /** A queued task is claimed and reviewed while everything else that is leased awaits delivery. */
  lemma StartedAndReviewed(config: Config, db: Db, id: TaskId, worker: Worker)
    requires OneOfEach(config) && LeasedIn(db, ExecutionLane) == {} && StartsSince(db.log, db.clock - DAY_MS) < 2
    requires id in db.tasks && db.tasks[id] == NewTask(db.tasks[id].createdAt, {}, {})
    requires forall other :: other in db.tasks && other != id ==> db.tasks[other].lease.Some?
    ensures var after := PerformAll(config, db, [StartAction(id, worker)] + StepsToReview(id, worker));
      && id in after.tasks && after.tasks[id].LeasedTo(worker) && after.tasks[id].state == Reviewing
      && after.tasks == db.tasks[id := after.tasks[id]] && after.clock == db.clock
      && StartsSince(after.log, db.clock - DAY_MS) <= StartsSince(db.log, db.clock - DAY_MS) + 1
  {
    hide Perform, PerformAll;
    var started := Perform(config, db, StartAction(id, worker));
    assert started == PerformAll(config, db, [StartAction(id, worker)]) by {
      RunNext(config, db, [], StartAction(id, worker));
      NoActions(config, db);
      assert [] + [StartAction(id, worker)] == [StartAction(id, worker)];
    }
    StartsTask(config, db, id, worker);
    assert started.log[..|db.log|] == db.log;
    ReachesReview(config, started, id, worker, db.clock - DAY_MS);
    PerformJoined(config, db, [StartAction(id, worker)], StepsToReview(id, worker));
  }

  lemma NoActions(config: Config, db: Db)
    ensures PerformAll(config, db, []) == db
  {
  }

  lemma StartsTask(config: Config, db: Db, id: TaskId, worker: Worker)
    requires OneOfEach(config) && LeasedIn(db, ExecutionLane) == {} && StartsSince(db.log, db.clock - DAY_MS) < 2
    requires id in db.tasks && db.tasks[id] == NewTask(db.tasks[id].createdAt, {}, {})
    requires forall other :: other in db.tasks && other != id ==> db.tasks[other].lease.Some?
    ensures var started := Perform(config, db, StartAction(id, worker));
      && started.log == db.log + [Transition(id, Queued, Analyzing, db.clock)] && started.clock == db.clock
      && id in started.tasks && started.tasks == db.tasks[id := started.tasks[id]]
      && started.tasks[id].LeasedTo(worker) && started.tasks[id].state == Analyzing
  {
    OpenClaim(config, db, id, worker);
    var started := Perform(config, db, StartAction(id, worker));
    assert forall other :: other in db.tasks && other != id ==> started.tasks[other] == db.tasks[other];
  }

  /** The first of two tasks awaits its delivery, and the second has just been reviewed. */
  function TwoReviewedTasks(id: TaskId, later: TaskId, worker: Worker): seq<Action> {
    [StartAction(id, worker)] + StepsToReview(id, worker)
    + [AdvanceAction(id, worker, PrCreated), Create(later, {}, {})]
    + ([StartAction(later, worker)] + StepsToReview(later, worker))
  }

  /** The only task advances to delivery and another one is created. */
  lemma HandsOver(config: Config, db: Db, id: TaskId, later: TaskId, worker: Worker)
    requires db.tasks.Keys == {id} && db.tasks[id].LeasedTo(worker) && db.tasks[id].state == Reviewing && id != later
    ensures var after := PerformAll(config, db, [AdvanceAction(id, worker, PrCreated), Create(later, {}, {})]);
      && after.tasks.Keys == {id, later} && after.clock == db.clock
      && after.tasks[id].lease.Some? && after.tasks[id].state == PrCreated
      && after.tasks[later] == NewTask(db.clock, {}, {})
      && StartsSince(after.log, db.clock - DAY_MS) == StartsSince(db.log, db.clock - DAY_MS)
      && LeasedIn(after, ExecutionLane) == {}
  {
    hide Perform, AdvanceAction;
    var advanced := Perform(config, db, AdvanceAction(id, worker, PrCreated));
    AdvancesTask(config, db, db, id, worker, Reviewing, PrCreated, db.clock - DAY_MS);
    assert [AdvanceAction(id, worker, PrCreated), Create(later, {}, {})][..1] == [AdvanceAction(id, worker, PrCreated)];
    RunNext(config, db, [], AdvanceAction(id, worker, PrCreated));
    assert [] + [AdvanceAction(id, worker, PrCreated)] == [AdvanceAction(id, worker, PrCreated)];
    CreatesTask(config, advanced, later);
  }

  lemma CreatesTask(config: Config, db: Db, later: TaskId)
    requires later !in db.tasks
    ensures Perform(config, db, Create(later, {}, {})) == db.(tasks := db.tasks[later := NewTask(db.clock, {}, {})])
  {
  }

  /** The second advance, while the first task is leased in the delivery lane. */
  lemma SecondHandover(config: Config, db: Db, id: TaskId, later: TaskId, worker: Worker)
    requires id != later && db.tasks.Keys == {id, later} && db.tasks[id].lease.Some? && db.tasks[id].state == PrCreated
    requires db.tasks[later].LeasedTo(worker) && db.tasks[later].state == Reviewing
    ensures LeasedIn(db, DeliveryLane) == {id}
    ensures LeasedIn(Perform(config, db, AdvanceAction(later, worker, PrCreated)), DeliveryLane) == {id, later}
  {
    CrossingAdds(config, db, AdvanceAction(later, worker, PrCreated), DeliveryLane);
  }

  /**
   The lane limit does not hold for all leased tasks: with one slot in each lane, a task advances into the delivery lane
   while another is leased there.
   */
  lemma DeliveryLaneCanHoldTwo(config: Config, id: TaskId, later: TaskId, worker: Worker)
    requires OneOfEach(config) && id != later
    ensures var start := Db(map[id := NewTask(0, {}, {})], [], 0);
      var full := PerformAll(config, start, TwoReviewedTasks(id, later, worker));
      && Initial(start) && |LeasedIn(full, DeliveryLane)| == 1
      && |LeasedIn(Perform(config, full, AdvanceAction(later, worker, PrCreated)), DeliveryLane)| == 2
  {
    hide Perform, PerformAll, AdvanceAction, StartAction, StepsToReview;
    var start := Db(map[id := NewTask(0, {}, {})], [], 0);
    var first := [StartAction(id, worker)] + StepsToReview(id, worker);
    var handover := [AdvanceAction(id, worker, PrCreated), Create(later, {}, {})];
    var second := [StartAction(later, worker)] + StepsToReview(later, worker);
    StartedAndReviewed(config, start, id, worker);
    var reviewed := PerformAll(config, start, first);
    HandsOver(config, reviewed, id, later, worker);
    var grown := PerformAll(config, reviewed, handover);
    StartedAndReviewed(config, grown, later, worker);
    var full := PerformAll(config, grown, second);
    PerformJoined(config, start, first, handover);
    PerformJoined(config, start, first + handover, second);
    SecondHandover(config, full, id, later, worker);
  }

  // ------------------------------------------------------------------ dependencies

  ghost predicate DependenciesKept(db: Db) {
    && (forall id :: id in db.tasks ==> db.tasks[id].blockers <= db.tasks.Keys)
    && (forall i, blocker | 0 <= i < |db.log| && IsStart(db.log[i]) && db.log[i].taskId in db.tasks
                             && blocker in db.tasks[db.log[i].taskId].blockers ::
          blocker in db.tasks && db.tasks[blocker].state == Completed)
    && (forall i :: 0 <= i < |db.log| ==> db.log[i].taskId in db.tasks)
  }

  lemma CompletedStays(config: Config, db: Db, action: Action, id: TaskId)
    requires id in db.tasks && db.tasks[id].state == Completed
    ensures id in Perform(config, db, action).tasks && Perform(config, db, action).tasks[id].state == Completed
  {
    PerformShape(config, db, action);
  }

  lemma DependenciesStep(config: Config, db: Db, action: Action)
    requires DependenciesKept(db)
    ensures DependenciesKept(Perform(config, db, action))
  {
    hide Perform;
    var after := Perform(config, db, action);
    PerformShape(config, db, action);
    forall i, blocker | 0 <= i < |after.log| && IsStart(after.log[i]) && after.log[i].taskId in after.tasks
        && blocker in after.tasks[after.log[i].taskId].blockers
      ensures blocker in after.tasks && after.tasks[blocker].state == Completed
    {
      var id := after.log[i].taskId;
      if i == |db.log| {
        StartsAreBudgetedClaims(config, db, action);
      }
      IdentitiesKept(config, db, action, id);
      assert blocker in db.tasks && db.tasks[blocker].state == Completed;
      CompletedStays(config, db, action, blocker);
    }
  }

  /** In every run, a task that has ever been started has only completed blockers, and they stay completed. */
  lemma {:induction false} StartedTasksHaveCompletedBlockers(config: Config, start: Db, actions: seq<Action>)
    requires Initial(start)
    ensures DependenciesKept(PerformAll(config, start, actions))
  {
    if |actions| > 0 {
      StartedTasksHaveCompletedBlockers(config, start, actions[..|actions| - 1]);
      DependenciesStep(config, PerformAll(config, start, actions[..|actions| - 1]), actions[|actions| - 1]);
    }
  }
}
