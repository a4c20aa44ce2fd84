/**
 The stage handlers in the form they run in: methods that restore, start attempts, run agents and gates, commit, push
 and record one durable effect at a time, while other people may commit to the task's branches before every one of them.
 Each handler performs exactly the effects of its plan, in order, among whatever others do; so what holds of every plan
 holds of every state that a handler passes through.
 */
module ExecutionStages {
  import opened Wrappers
  import opened Domain
  import opened Commits
  import opened ExecutionStore
  import opened StagePlans
  import opened ExecutionSafety
  import opened ExecutionDrift
  import opened ExecutionPlansSafe
  import Observation
  import Tasks

  /** Every unit still has the head that `heads` names. */
  predicate HeadsStand(store: Store, units: seq<Repository>, heads: Heads)
    requires store.Prepared(units)
  {
    forall i :: 0 <= i < |units| ==> units[i] in heads && store.Head(units[i]) == heads[units[i]]
  }

  /** How the changes an agent left were dealt with. */
  datatype Application = Integrity | Discarded | Committed(commits: Heads)

  /** One more unit of a batch of commits. */
  lemma CommitsNext(heads: Heads, units: seq<Repository>, i: nat, changed: set<Repository>, origin: Origin, next: nat)
    requires i < |units|
    ensures var earlier := CommitEffects(units[..i], changed, origin, next);
      var reached := CommittedHeads(heads, units[..i], changed, origin, next);
      var commit := Commit(next + |earlier|, origin);
      && CommitEffects(units[..i + 1], changed, origin, next)
         == (if units[i] in changed then earlier + [MakeCommit(units[i], commit)] else earlier)
      && CommittedHeads(heads, units[..i + 1], changed, origin, next)
         == if units[i] in changed then reached[units[i] := commit] else reached
  {
    assert units[..i + 1][..i] == units[..i];
  }

  lemma GatesNext(input: StageInput, units: seq<Repository>, i: nat)
    requires input.TestInput? && i < |units|
    ensures GateEffects(input, units[..i + 1])
         == GateEffects(input, units[..i]) + [RunGate(units[i], Report(input, i) == GatePassed)]
    ensures GatesStopAt(input, units, i) ==
      if Report(input, i) == GateAborted || Report(input, i) == GateInfrastructure then i
      else GatesStopAt(input, units, i + 1)
  {
  }

  /** The input as the handler's own check found it. */
  function Found(input: StageInput, moved: bool): StageInput {
    match input
    case AnalysisInput(preparation, loadFails, digest, result, wrote, _, problems, clarification) =>
      AnalysisInput(preparation, loadFails, digest, result, wrote, moved, problems, clarification)
    case WorkInput(loadFails, route, result, touched, _, changed, violation) =>
      WorkInput(loadFails, route, result, touched, moved, changed, violation)
    case ReviewInput(loadFails, result, wrote, _, problems, verdict, blockingFinding) =>
      ReviewInput(loadFails, result, wrote, moved, problems, verdict, blockingFinding)
    case _ => input
  }

  /** One run of a handler: the row it was given, what it met, its outcome, and all that happened to the store. */
  datatype StageRun =
    StageRun(task: Tasks.Task, input: StageInput, outcome: StageOutcome, base: Store, trace: seq<Effect>)

  /** The run followed the plan for the store it found, and wherever it is cut off, the store it leaves is in order. */
  ghost predicate RunInOrder(limits: Limits, run: StageRun) {
    && run.base.Prepared(limits.units)
    && Own(run.trace) == StagePlan(limits, run.task, run.base, run.input).effects
    && run.outcome == StagePlan(limits, run.task, run.base, run.input).outcome
    && forall n :: 0 <= n <= |run.trace| ==> StoreOk(limits, ApplyAll(run.base, run.trace[..n]))
  }

  class Handlers {
    const limits: Limits
    var branches: map<Repository, seq<Commit>>
    var dirty: set<Repository>
    var checkpoints: Checkpoints
    var attempts: map<TaskState, Attempts>
    var rows: map<Repository, Observation.UnitRow>
    var events: seq<Event>
    var nextCommit: nat
    var nextForeign: nat
    /** What other people commit to, before each effect to come. */
    var others: seq<seq<Repository>>
    /** The store the current run found, and everything that has happened to it since. */
    ghost var base: Store
    ghost var trace: seq<Effect>

    constructor (limits: Limits, store: Store, others: seq<seq<Repository>>)
      requires StoreOk(limits, store) && DistinctUnits(limits.units)
      requires forall unit :: unit in store.dirty ==> unit in limits.units
      ensures this.limits == limits && View() == store && this.others == others && Valid() && trace == []
    {
      this.limits, this.others := limits, others;
      branches, dirty, checkpoints, attempts := store.branches, store.dirty, store.checkpoints, store.attempts;
      rows, events, nextCommit, nextForeign := store.rows, store.events, store.nextCommit, store.nextForeign;
      base, trace := store, [];
    }

    ghost function View(): Store
      reads this
    {
      Store(branches, dirty, checkpoints, attempts, rows, events, nextCommit, nextForeign)
    }

    ghost predicate InUnits(repositories: set<Repository>) {
      forall unit :: unit in repositories ==> unit in limits.units
    }

    ghost predicate Valid()
      reads this
    {
      && View() == ApplyAll(base, trace)
      && View().Prepared(limits.units) && InUnits(dirty) && DistinctUnits(limits.units)
    }

    /** The run itself has performed exactly these effects, in this order. */
    twostate predicate Did(effects: seq<Effect>)
      reads this
    {
      && old(trace) <= trace && Own(trace) == Own(old(trace)) + effects
      && base == old(base) && Valid() && branches.Keys == old(branches).Keys
    }

    // ---------------------------------------------------------------- single effects

    /** Adds one effect to the record once it has happened. */
    ghost method Note(effect: Effect)
      requires View() == Apply(ApplyAll(base, trace), effect)
      requires View().Prepared(limits.units) && InUnits(dirty) && DistinctUnits(limits.units)
      modifies `trace
      ensures trace == old(trace) + [effect] && Valid()
      ensures Own(trace) == if effect.ForeignMove? then Own(old(trace)) else Own(old(trace)) + [effect]
    {
      hide ApplyAll, Own;
      ApplyNext(base, trace, effect);
      OwnNext(trace, effect);
      trace := trace + [effect];
    }

    /** Somebody else's commit on a branch. */
    method Intrude(unit: Repository)
      requires Valid()
      modifies this
      ensures Did([]) && SameRest(old(View()), View()) && others == old(others)
      ensures StoreOk(limits, old(View())) ==> StoreOk(limits, View())
    {
      hide ApplyAll, Own, StoreOk;
      if StoreOk(limits, View()) {
        AllowedKeepsStore(limits, View(), ForeignMove(unit));
      }
      if unit in branches {
        branches := branches[unit := branches[unit] + [Commit(nextForeign, ForeignCommit)]];
        nextForeign := nextForeign + 1;
      }
      Note(ForeignMove(unit));
    }

    /** Whatever other people commit before the next effect. */
    method Meanwhile()
      requires Valid()
      modifies this
      ensures Did([]) && SameRest(old(View()), View())
      ensures StoreOk(limits, old(View())) ==> StoreOk(limits, View())
    {
      hide ApplyAll, Own, StoreOk, SameRest;
      if |others| == 0 {
        SameRestItself(View());
        return;
      }
      var moves := others[0];
      others := others[1..];
      SameRestItself(View());
      var i := 0;
      while i < |moves|
        invariant 0 <= i <= |moves|
        invariant Did([]) && SameRest(old(View()), View())
        invariant StoreOk(limits, old(View())) ==> StoreOk(limits, View())
      {
        ghost var before := View();
        Intrude(moves[i]);
        SameRestJoins(old(View()), before, View());
        i := i + 1;
      }
    }

    method RestoreAll()
      requires Valid()
      modifies this
      ensures Did([Restore]) && SameRest(Apply(old(View()), Restore), View()) && dirty == {}
    {
      hide ApplyAll, Own, StoreOk;
      Meanwhile();
      ghost var now := View();
      var i := 0;
      while i < |limits.units|
        invariant 0 <= i <= |limits.units|
        invariant View() == now.(dirty := dirty) && now == ApplyAll(base, trace) && base == old(base)
        invariant old(trace) <= trace && Own(trace) == Own(old(trace))
        invariant forall unit :: unit in dirty ==> unit in limits.units[i..]
      {
        dirty := dirty - {limits.units[i]};
        i := i + 1;
      }
      assert dirty == {};
      Note(Restore);
    }

    /** An open attempt is used again; otherwise the next number is opened. */
    method BeginAttempt(stage: TaskState) returns (attempt: nat)
      requires Valid()
      modifies this
      ensures Did([StartAttempt(stage)]) && SameRest(Apply(old(View()), StartAttempt(stage)), View())
      ensures attempt == NextAttempt(old(View()).AttemptsOf(stage))
    {
      hide ApplyAll, Own, StoreOk;
      Meanwhile();
      var recorded: Attempts := if stage in attempts then attempts[stage] else map[];
      var latest := Latest(recorded);
      attempt := if latest in recorded && !recorded[latest] then latest else latest + 1;
      attempts := attempts[stage := recorded[attempt := false]];
      Note(StartAttempt(stage));
    }

    method EndAttempt(stage: TaskState, attempt: nat)
      requires Valid()
      modifies this
      ensures Did([CompleteAttempt(stage, attempt)])
      ensures SameRest(Apply(old(View()), CompleteAttempt(stage, attempt)), View())
    {
      hide ApplyAll, Own, StoreOk;
      Meanwhile();
      var recorded: Attempts := if stage in attempts then attempts[stage] else map[];
      attempts := attempts[stage := recorded[attempt := true]];
      Note(CompleteAttempt(stage, attempt));
    }

    /** Writes one checkpoint, and logs it when the history keeps its kind. */
    method SaveCheckpoint(effect: Effect)
      requires Valid()
      requires effect.SaveAnalysis? || effect.SaveSetup? || effect.SaveImplementation? || effect.SaveRejection?
            || effect.SaveQuality? || effect.SaveFixRequest? || effect.SaveFixApplied? || effect.SaveReview?
      modifies this
      ensures Did([effect]) && SameRest(Apply(old(View()), effect), View())
    {
      hide ApplyAll, Own, StoreOk;
      Meanwhile();
      match effect {
        case SaveAnalysis(digest) => checkpoints := checkpoints.(analysis := Some(digest));
        case SaveSetup(heads) => checkpoints := checkpoints.(setup := Some(heads));
        case SaveImplementation(implementation) => checkpoints := checkpoints.(implementation := Some(implementation));
        case SaveRejection(number) => checkpoints := checkpoints.(rejected := Some(number));
        case SaveQuality(heads) =>
          checkpoints := checkpoints.(qualityPassed := Some(heads));
          events := events + [QualityRecorded(heads)];
        case SaveFixRequest(request) =>
          checkpoints := checkpoints.(fixRequest := Some(request));
          events := events + [FixRequested(request.id)];
        case SaveFixApplied(id) =>
          checkpoints := checkpoints.(fixApplied := Some(id));
          events := events + [FixRecorded(id)];
        case SaveReview(heads) =>
          checkpoints := checkpoints.(reviewApproved := Some(heads));
          events := events + [ReviewRecorded(heads)];
      }
      Note(effect);
    }

    /** One local commit of a worktree's changes. */
    method CommitWorkspace(unit: Repository, origin: Origin) returns (commit: Commit)
      requires Valid() && unit in branches
      modifies this
      ensures commit == Commit(old(nextCommit), origin)
      ensures Did([MakeCommit(unit, commit)]) && nextCommit == old(nextCommit) + 1
    {
      hide ApplyAll, Own, StoreOk;
      Meanwhile();
      commit := Commit(nextCommit, origin);
      branches, nextCommit, dirty := branches[unit := branches[unit] + [commit]], nextCommit + 1, dirty - {unit};
      Note(MakeCommit(unit, commit));
    }

    /** An agent process; what it leaves lies in the task's worktrees. */
    method RunAgentProcess(writes: bool, touched: set<Repository>)
      requires Valid() && InUnits(touched)
      modifies this
      ensures Did([RunAgent(writes, touched)]) && SameRest(Apply(old(View()), RunAgent(writes, touched)), View())
    {
      hide ApplyAll, Own, StoreOk;
      Meanwhile();
      if writes {
        events := events + [AgentStarted(dirty == {})];
      }
      dirty := dirty + touched;
      Note(RunAgent(writes, touched));
    }

    method RunSetupCommands(touched: set<Repository>)
      requires Valid() && InUnits(touched)
      modifies this
      ensures Did([RunSetup(touched)]) && SameRest(Apply(old(View()), RunSetup(touched)), View())
    {
      hide ApplyAll, Own, StoreOk;
      Meanwhile();
      dirty := dirty + touched;
      Note(RunSetup(touched));
    }

    /** Quality commands of one unit; they run on the head its branch has by then and may leave files behind. */
    method RunGates(unit: Repository, passed: bool)
      requires Valid() && unit in limits.units
      modifies this
      ensures Did([RunGate(unit, passed)])
      ensures attempts == old(attempts) && checkpoints == old(checkpoints)
    {
      hide ApplyAll, Own, StoreOk;
      Meanwhile();
      events := events + [GateRun(unit, branches[unit][|branches[unit]| - 1], passed, unit !in dirty)];
      dirty := dirty + {unit};
      Note(RunGate(unit, passed));
    }

    method PushBranch(unit: Repository, heads: Heads)
      requires Valid()
      modifies this
      ensures Did([Push(unit, heads)]) && SameRest(old(View()), View())
    {
      hide ApplyAll, Own, StoreOk;
      Meanwhile();
      events := events + [Pushed(unit, heads)];
      Note(Push(unit, heads));
    }

    /** Stores what is known of a delivered work unit. */
    method RecordWorkUnit(unit: Repository, row: Observation.UnitRow)
      requires Valid()
      modifies this
      ensures Did([RecordUnit(unit, row)]) && attempts == old(attempts) && rows == old(rows)[unit := row]
    {
      hide ApplyAll, Own, StoreOk;
      Meanwhile();
      rows := rows[unit := row];
      Note(RecordUnit(unit, row));
    }

    // ---------------------------------------------------------------- shared inspections

    method LoadHeads() returns (heads: Heads)
      requires View().Prepared(limits.units)
      ensures heads == HeadsOf(View(), limits.units)
    {
      heads := map[];
      var i := 0;
      while i < |limits.units|
        invariant 0 <= i <= |limits.units|
        invariant heads.Keys == set unit | unit in limits.units[..i]
        invariant forall unit :: unit in heads ==>
          unit in branches && |branches[unit]| > 0 && heads[unit] == View().Head(unit)
      {
        var unit := limits.units[i];
        heads := heads[unit := branches[unit][|branches[unit]| - 1]];
        i := i + 1;
      }
      assert limits.units[..i] == limits.units;
    }

    /** Whether every branch still has the head that `heads` names. */
    method AgentLeftGitState(heads: Heads) returns (left: bool)
      requires View().Prepared(limits.units) && forall unit :: unit in limits.units ==> unit in heads
      ensures left <==> HeadsStand(View(), limits.units, heads)
    {
      var i := 0;
      while i < |limits.units|
        invariant 0 <= i <= |limits.units|
        invariant forall k :: 0 <= k < i ==> View().Head(limits.units[k]) == heads[limits.units[k]]
      {
        var unit := limits.units[i];
        if branches[unit][|branches[unit]| - 1] != heads[unit] {
          return false;
        }
        i := i + 1;
      }
      return true;
    }

    /** Since `start`, the changed units among the first `n` are committed, which leads from `heads` to `commits`. */
    ghost predicate CommitsMade(start: seq<Effect>, next: nat, heads: Heads, changed: set<Repository>, origin: Origin,
                                n: nat, commits: Heads)
      requires n <= |limits.units|
      reads this
    {
      && Valid() && start <= trace
      && Own(trace) == Own(start) + CommitEffects(limits.units[..n], changed, origin, next)
      && nextCommit == next + |CommitEffects(limits.units[..n], changed, origin, next)|
      && commits == CommittedHeads(heads, limits.units[..n], changed, origin, next)
    }

    /** Commits every changed unit in order and returns the new commit vector. */
    method CommitChanges(heads: Heads, changed: set<Repository>, origin: Origin) returns (commits: Heads)
      requires Valid()
      modifies this
      ensures Did(CommitEffects(limits.units, changed, origin, old(nextCommit)))
      ensures commits == CommittedHeads(heads, limits.units, changed, origin, old(nextCommit))
    {
      hide ApplyAll, Own, StoreOk;
      commits := heads;
      var i := 0;
      while i < |limits.units|
        invariant 0 <= i <= |limits.units|
        invariant CommitsMade(old(trace), old(nextCommit), heads, changed, origin, i, commits)
        invariant base == old(base) && branches.Keys == old(branches).Keys
      {
        commits := CommitUnit(old(trace), old(nextCommit), heads, changed, origin, i, commits);
        i := i + 1;
      }
      assert limits.units[..i] == limits.units;
    }

    method CommitUnit(ghost start: seq<Effect>, ghost next: nat, ghost heads: Heads, changed: set<Repository>,
                      origin: Origin, i: nat, made: Heads)
      returns (commits: Heads)
      requires i < |limits.units| && CommitsMade(start, next, heads, changed, origin, i, made)
      modifies this
      ensures CommitsMade(start, next, heads, changed, origin, i + 1, commits)
      ensures base == old(base) && branches.Keys == old(branches).Keys
    {
      hide ApplyAll, Own, StoreOk;
      commits := made;
      CommitsNext(heads, limits.units, i, changed, origin, next);
      if limits.units[i] in changed {
        var commit := CommitWorkspace(limits.units[i], origin);
        commits := commits[limits.units[i] := commit];
      }
    }

    /**
     Verifies that Git state was left alone, applies the diff policy, and commits or discards all changes. What others
     commit up to the check is what it finds; what they commit after it stays unnoticed.
     */
    method InspectAndCommit(heads: Heads, input: StageInput, everyUnit: bool, origin: Origin)
      returns (application: Application)
      requires Valid() && input.WorkInput? && forall unit :: unit in limits.units ==> unit in heads
      modifies this
      ensures application.Integrity? ==> Did([])
      ensures application.Integrity? ==> !HeadsStand(View(), limits.units, heads)
      ensures application.Discarded? ==> Did([Restore]) && PolicyViolated(limits, input, everyUnit)
      ensures application.Committed? ==>
        && Did(CommitEffects(limits.units, input.changed, origin, old(nextCommit)))
        && application.commits == CommittedHeads(heads, limits.units, input.changed, origin, old(nextCommit))
        && !PolicyViolated(limits, input, everyUnit)
    {
      hide ApplyAll, Own, StoreOk;
      Meanwhile();
      var left := AgentLeftGitState(heads);
      if !left {
        return Integrity;
      }
      if PolicyViolated(limits, input, everyUnit) {
        RestoreAll();
        return Discarded;
      }
      var commits := CommitChanges(heads, input.changed, origin);
      return Committed(commits);
    }

    // ---------------------------------------------------------------- implementation and fixes

    /** Restores, opens an attempt, and lets a write-enabled agent work. */
    method RunWorker(stage: TaskState, input: StageInput) returns (attempt: nat)
      requires Valid() && input.WorkInput?
      modifies this
      ensures attempt == NextAttempt(old(View()).AttemptsOf(stage))
      ensures Did(WorkerEffects(limits.units, stage, input)) && nextCommit == old(nextCommit)
    {
      hide ApplyAll, Own, StoreOk;
      RestoreAll();
      attempt := BeginAttempt(stage);
      RunAgentProcess(true, Within(limits.units, input.touched));
    }

    method Implement(task: Tasks.Task, input: StageInput) returns (outcome: StageOutcome, moved: bool)
      requires Valid() && input.WorkInput?
      modifies this
      ensures var plan := ImplementationPlan(limits, task, old(View()), Found(input, moved));
        Did(plan.effects) && outcome == plan.outcome
    {
      hide ApplyAll, Own, StoreOk, ImplementationEnding;
      moved := input.moved;
      var early := ReuseImplementation(task, input);
      if early.Some? {
        return early.value, moved;
      }
      var heads := LoadHeads();
      ghost var next := nextCommit;
      var attempt := RunWorker(Implementing, input);
      outcome, moved := EndImplementation(input, heads, next, task.implementationAttempts + 1, attempt);
    }

    /** The outcome of an implementation run that needs no agent: nothing accepted, already committed, or exhausted. */
    method ReuseImplementation(task: Tasks.Task, input: StageInput) returns (early: Option<StageOutcome>)
      requires Valid() && input.WorkInput?
      ensures early.None? <==> ImplementationRuns(limits, task, View(), input)
      ensures early.Some? ==> early.value == ImplementationShortcut(limits, task, View(), input)
    {
      hide ApplyAll, Own, StoreOk;
      if input.loadFails || checkpoints.analysis.None? {
        return Some(Threw);
      }
      if checkpoints.implementation.Some? {
        var committed := checkpoints.implementation.value;
        var lost := LostCommit(committed.commits);
        if lost {
          return Some(MANUAL);
        }
        var counts := task.implementationAttempts < committed.attempt;
        return Some(Advance(Testing, if counts then Some(ImplementationAttempts) else None, false));
      }
      var unrecorded := UnrecordedCommits();
      if unrecorded {
        return Some(MANUAL);
      }
      if task.implementationAttempts + 1 > limits.maxImplementationAttempts || !input.route {
        return Some(Step(Failed));
      }
      return None;
    }

    method LostCommit(commits: Heads) returns (lost: bool)
      requires View().Prepared(limits.units)
      ensures lost <==> CommitLost(View(), limits.units, commits)
    {
      var i := 0;
      while i < |limits.units|
        invariant 0 <= i <= |limits.units|
        invariant forall k :: 0 <= k < i ==>
          limits.units[k] in commits && commits[limits.units[k]] in branches[limits.units[k]]
      {
        var unit := limits.units[i];
        if unit !in commits || commits[unit] !in branches[unit] {
          return true;
        }
        i := i + 1;
      }
      return false;
    }

    method UnrecordedCommits() returns (found: bool)
      requires View().Prepared(limits.units)
      ensures found <==> HasUnrecordedCommits(View(), limits.units)
    {
      var i := 0;
      while i < |limits.units|
        invariant 0 <= i <= |limits.units|
        invariant forall k :: 0 <= k < i ==> View().Head(limits.units[k]) == branches[limits.units[k]][0]
      {
        var branch := branches[limits.units[i]];
        if branch[|branch| - 1] != branch[0] {
          return true;
        }
        i := i + 1;
      }
      return false;
    }

    /** What the implementation handler does with the agent's result. */
    method EndImplementation(input: StageInput, heads: Heads, ghost next: nat, number: nat, attempt: nat)
      returns (outcome: StageOutcome, moved: bool)
      requires Valid() && input.WorkInput? && nextCommit == next
      requires forall unit :: unit in limits.units ==> unit in heads
      modifies this
      ensures var ending := ImplementationEnding(limits, Found(input, moved), heads, next, number, attempt);
        Did(ending.effects) && outcome == ending.outcome
    {
      hide ApplyAll, Own, StoreOk, CommitEffects, CommittedHeads;
      moved := input.moved;
      var stopped := PauseOrInterruption(input.result);
      if stopped.Some? {
        if input.result.AgentCancelled? {
          RestoreAll();
        }
        EndAttempt(Implementing, attempt);
        return stopped.value, moved;
      }
      if input.result.AgentBlocked? {
        RestoreAll();
        EndAttempt(Implementing, attempt);
        return MANUAL, moved;
      }
      if !input.result.AgentDone? {
        outcome := RejectAttempt(attempt, number);
        return;
      }
      outcome, moved := ApplyImplementation(input, heads, next, number, attempt);
    }

    /** Discards a rejected attempt; the task tries again through `READY`, or fails when this was the last attempt. */
    method RejectAttempt(attempt: nat, number: nat) returns (outcome: StageOutcome)
      requires Valid()
      modifies this
      ensures Did(Rejected(number, attempt)) && outcome == RejectOutcome(limits, number)
    {
      hide ApplyAll, Own, StoreOk;
      RestoreAll();
      SaveCheckpoint(SaveRejection(number));
      EndAttempt(Implementing, attempt);
      if number >= limits.maxImplementationAttempts {
        return Consuming(Failed, ImplementationAttempts);
      }
      return Consuming(Ready, ImplementationAttempts);
    }

    /** What the check of the heads finds does not bear on the policy. */
    lemma SamePolicy(input: StageInput, moved: bool, everyUnit: bool)
      requires input.WorkInput?
      ensures PolicyViolated(limits, Found(input, moved), everyUnit) == PolicyViolated(limits, input, everyUnit)
    {
    }

    /** The last part of the handler: an agent that finished. */
    method ApplyImplementation(input: StageInput, heads: Heads, ghost next: nat, number: nat, attempt: nat)
      returns (outcome: StageOutcome, moved: bool)
      requires Valid() && input.WorkInput? && nextCommit == next
      requires forall unit :: unit in limits.units ==> unit in heads
      requires PauseOrInterruption(input.result).None? && input.result.AgentDone?
      modifies this
      ensures var ending := ImplementationEnding(limits, Found(input, moved), heads, next, number, attempt);
        Did(ending.effects) && outcome == ending.outcome
    {
      hide ApplyAll, Own, StoreOk, CommitEffects, CommittedHeads, PolicyViolated, HeadsStand, Apply, SameRest;
      var application := InspectAndCommit(heads, input, true, ImplementationCommit(number));
      moved := application.Integrity?;
      SamePolicy(input, moved, true);
      match application {
        case Integrity =>
          EndAttempt(Implementing, attempt);
          outcome := MANUAL;
        case Discarded =>
          outcome := RejectAttempt(attempt, number);
        case Committed(commits) =>
          SaveCheckpoint(SaveImplementation(Implementation(number, commits)));
          EndAttempt(Implementing, attempt);
          outcome := Consuming(Testing, ImplementationAttempts);
      }
    }

    method Fix(input: StageInput) returns (outcome: StageOutcome, moved: bool)
      requires Valid() && input.WorkInput?
      modifies this
      ensures var plan := FixingPlan(limits, old(View()), Found(input, moved));
        Did(plan.effects) && outcome == plan.outcome
    {
      hide ApplyAll, Own, StoreOk, FixingEnding;
      moved := input.moved;
      var early, heads := ReuseFix(input);
      if early.Some? {
        return early.value, moved;
      }
      var id := checkpoints.fixRequest.value.id;
      ghost var next := nextCommit;
      var attempt := RunWorker(Fixing, input);
      outcome, moved := EndFixing(input, heads, next, id, attempt);
    }

    /** The outcome of a fixing run that needs no agent. */
    method ReuseFix(input: StageInput) returns (early: Option<StageOutcome>, heads: Heads)
      requires Valid() && input.WorkInput?
      ensures early.None? <==> FixingRuns(limits, View(), input)
      ensures early.Some? ==> early.value == FixingShortcut(limits, View(), input)
      ensures early.None? ==> heads == HeadsOf(View(), limits.units)
    {
      hide ApplyAll, Own, StoreOk;
      if input.loadFails {
        return Some(Threw), map[];
      }
      heads := LoadHeads();
      if checkpoints.fixRequest.None? {
        return Some(MANUAL), heads;
      }
      var request := checkpoints.fixRequest.value;
      if checkpoints.fixApplied == Some(request.id) {
        return Some(Step(Testing)), heads;
      }
      if request.heads != heads {
        return Some(MANUAL), heads;
      }
      if checkpoints.analysis.None? {
        return Some(Threw), heads;
      }
      if !input.route {
        return Some(MANUAL), heads;
      }
      return None, heads;
    }

    /** What the fixing handler does with the agent's result. */
    method EndFixing(input: StageInput, heads: Heads, ghost next: nat, id: RequestId, attempt: nat)
      returns (outcome: StageOutcome, moved: bool)
      requires Valid() && input.WorkInput? && nextCommit == next
      requires forall unit :: unit in limits.units ==> unit in heads
      modifies this
      ensures var ending := FixingEnding(limits, Found(input, moved), next, id, attempt);
        Did(ending.effects) && outcome == ending.outcome
    {
      hide ApplyAll, Own, StoreOk, CommitEffects, CommittedHeads;
      moved := input.moved;
      var stopped := PauseOrInterruption(input.result);
      if stopped.Some? {
        if input.result.AgentCancelled? {
          RestoreAll();
        }
        EndAttempt(Fixing, attempt);
        return stopped.value, moved;
      }
      if input.result.AgentBlocked? {
        RestoreAll();
        EndAttempt(Fixing, attempt);
        return MANUAL, moved;
      }
      if !input.result.AgentDone? {
        RestoreAll();
        SaveCheckpoint(SaveFixApplied(id));
        EndAttempt(Fixing, attempt);
        return Step(Testing), moved;
      }
      outcome, moved := ApplyFix(input, heads, next, id, attempt);
    }

    method ApplyFix(input: StageInput, heads: Heads, ghost next: nat, id: RequestId, attempt: nat)
      returns (outcome: StageOutcome, moved: bool)
      requires Valid() && input.WorkInput? && nextCommit == next
      requires forall unit :: unit in limits.units ==> unit in heads
      requires PauseOrInterruption(input.result).None? && input.result.AgentDone?
      modifies this
      ensures var ending := FixingEnding(limits, Found(input, moved), next, id, attempt);
        Did(ending.effects) && outcome == ending.outcome
    {
      hide ApplyAll, Own, StoreOk, CommitEffects, CommittedHeads, PolicyViolated, HeadsStand, Apply, SameRest;
      var application := InspectAndCommit(heads, input, false, FixCommit(id));
      moved := application.Integrity?;
      SamePolicy(input, moved, false);
      if moved {
        EndAttempt(Fixing, attempt);
        return MANUAL, moved;
      }
      SaveCheckpoint(SaveFixApplied(id));
      EndAttempt(Fixing, attempt);
      outcome := Step(Testing);
    }

    // ---------------------------------------------------------------- quality gates

    /** Since `start`, the first `n` gates have run; the last of them could not when `stopped`. */
    ghost predicate GatesDone(start: seq<Effect>, input: StageInput, n: nat, stopped: bool, passed: bool)
      requires input.TestInput? && n <= |limits.units|
      reads this
    {
      && Valid() && start <= trace && Own(trace) == Own(start) + GateEffects(input, limits.units[..n])
      && (stopped ==> 0 < n && GatesStopAt(input, limits.units, 0) == n - 1)
      && (!stopped ==> GatesStopAt(input, limits.units, 0) == GatesStopAt(input, limits.units, n))
      && (!stopped ==> (passed <==> forall k :: 0 <= k < n ==> Report(input, k) == GatePassed))
    }

    /** Runs the gates of every unit in order, until one cannot run. */
    method RunAllGates(input: StageInput) returns (stop: nat, passed: bool)
      requires Valid() && input.TestInput?
      modifies this
      ensures stop == GatesStopAt(input, limits.units, 0)
      ensures Did(GateEffects(input, UnitsRun(input, limits.units)))
      ensures stop == |limits.units| ==> (passed <==> AllGatesPassed(input, limits.units))
    {
      hide ApplyAll, Own, StoreOk, GateEffects, GatesStopAt;
      passed := true;
      var n, stopped := 0, false;
      assert GateEffects(input, limits.units[..0]) == [];
      while n < |limits.units| && !stopped
        invariant 0 <= n <= |limits.units|
        invariant GatesDone(old(trace), input, n, stopped, passed)
        invariant base == old(base) && branches.Keys == old(branches).Keys
        decreases |limits.units| - n
      {
        stopped, passed := RunUnitGates(old(trace), input, n, passed);
        n := n + 1;
      }
      assert limits.units[..|limits.units|] == limits.units;
      stop := if stopped then n - 1 else n;
    }

    method RunUnitGates(ghost start: seq<Effect>, input: StageInput, i: nat, passed: bool)
      returns (stopped: bool, allPassed: bool)
      requires input.TestInput? && i < |limits.units| && GatesDone(start, input, i, false, passed)
      modifies this
      ensures GatesDone(start, input, i + 1, stopped, allPassed)
      ensures base == old(base) && branches.Keys == old(branches).Keys
    {
      hide ApplyAll, Own, StoreOk;
      var report := Report(input, i);
      RunGates(limits.units[i], report == GatePassed);
      GatesNext(input, limits.units, i);
      stopped := report == GateAborted || report == GateInfrastructure;
      allPassed := passed && report == GatePassed;
    }

    /** Runs the gates against committed content only, and discards what they leave behind. */
    method GatherReports(input: StageInput) returns (attempt: nat, stop: nat, passed: bool)
      requires Valid() && input.TestInput?
      modifies this
      ensures attempt == NextAttempt(old(View()).AttemptsOf(Testing))
      ensures stop == GatesStopAt(input, limits.units, 0)
      ensures stop == |limits.units| ==> (passed <==> AllGatesPassed(input, limits.units))
      ensures Did(TestingEffects(limits, input))
    {
      hide ApplyAll, Own, StoreOk, NextAttempt, GateEffects, GatesStopAt, AllGatesPassed, UnitsRun;
      RestoreAll();
      attempt := BeginAttempt(Testing);
      stop, passed := RunAllGates(input);
      RestoreAll();
      assert [Restore] + [StartAttempt(Testing)] == [Restore, StartAttempt(Testing)];
    }

    method Test(task: Tasks.Task, input: StageInput) returns (outcome: StageOutcome)
      requires Valid() && input.TestInput?
      modifies this
      ensures var plan := TestingPlan(limits, task, old(View()), input);
        Did(plan.effects) && outcome == plan.outcome
    {
      hide ApplyAll, Own, StoreOk, TestingEnding, TestingEffects, NextAttempt;
      if input.loadFails {
        return Threw;
      }
      var heads := LoadHeads();
      if SameHeads(checkpoints.qualityPassed, heads) {
        return Step(Reviewing);
      }
      var attempt, stop, passed := GatherReports(input);
      outcome := EndTesting(task, input, heads, stop, passed, attempt);
    }

    /** What the testing handler records once its worktrees are restored. */
    method EndTesting(task: Tasks.Task, input: StageInput, heads: Heads, stop: nat, passed: bool, attempt: nat)
      returns (outcome: StageOutcome)
      requires Valid() && input.TestInput? && stop == GatesStopAt(input, limits.units, 0)
      requires stop == |limits.units| ==> (passed <==> AllGatesPassed(input, limits.units))
      modifies this
      ensures var ending := TestingEnding(limits, task, input, heads, attempt);
        Did(ending.effects) && outcome == ending.outcome
    {
      hide ApplyAll, Own, StoreOk;
      if stop < |limits.units| {
        EndAttempt(Testing, attempt);
        return if Report(input, stop) == GateAborted then Interrupted else MANUAL;
      }
      if passed {
        SaveCheckpoint(SaveQuality(heads));
        EndAttempt(Testing, attempt);
        return Step(Reviewing);
      }
      EndAttempt(Testing, attempt);
      if task.qualityFixAttempts >= limits.maxQualityFixAttempts {
        return Step(Failed);
      }
      SaveCheckpoint(SaveFixRequest(FixRequest(QualityRequest(attempt), heads)));
      return Consuming(Fixing, QualityFixAttempts);
    }

    // ---------------------------------------------------------------- review, analysis, setup

    /** Opens an attempt, lets a read-only agent work, and reports whether a head moved meanwhile. */
    method RunReader(stage: TaskState, wrote: bool) returns (attempt: nat, moved: bool)
      requires Valid()
      modifies this
      ensures attempt == NextAttempt(old(View()).AttemptsOf(stage))
      ensures Did(ReaderEffects(limits.units, stage, wrote))
    {
      hide ApplyAll, Own, StoreOk, NextAttempt, HeadsStand;
      attempt := BeginAttempt(stage);
      moved := ReadOnly(wrote);
      var touched := if wrote then set unit | unit in limits.units else {};
      assert [StartAttempt(stage)] + [RunAgent(false, touched)] == ReaderEffects(limits.units, stage, wrote);
    }

    /** A read-only agent, and whether a head moved while it ran. */
    method ReadOnly(wrote: bool) returns (moved: bool)
      requires Valid()
      modifies this
      ensures Did([RunAgent(false, if wrote then set unit | unit in limits.units else {})])
      ensures moved <==> !HeadsStand(View(), limits.units, HeadsOf(old(View()), limits.units))
    {
      hide ApplyAll, Own, StoreOk, HeadsStand;
      var before := LoadHeads();
      RunAgentProcess(false, if wrote then set unit | unit in limits.units else {});
      Meanwhile();
      var left := AgentLeftGitState(before);
      moved := !left;
    }

    method Review(task: Tasks.Task, input: StageInput) returns (outcome: StageOutcome, moved: bool)
      requires Valid() && input.ReviewInput?
      modifies this
      ensures var plan := ReviewPlan(limits, task, old(View()), Found(input, moved));
        Did(plan.effects) && outcome == plan.outcome
    {
      hide ApplyAll, Own, StoreOk, ReviewEnding;
      moved := input.moved;
      if input.loadFails {
        return Threw, moved;
      }
      var heads := LoadHeads();
      if SameHeads(checkpoints.reviewApproved, heads) {
        return Accepted(limits), moved;
      }
      if !SameHeads(checkpoints.qualityPassed, heads) {
        return MANUAL, moved;
      }
      if checkpoints.analysis.None? {
        return Threw, moved;
      }
      var attempt;
      attempt, moved := RunReader(Reviewing, input.wrote);
      outcome := EndReview(task, Found(input, moved), heads, attempt);
    }

    /** What the review handler does with the agent's result. */
    method EndReview(task: Tasks.Task, input: StageInput, heads: Heads, attempt: nat) returns (outcome: StageOutcome)
      requires Valid() && input.ReviewInput?
      modifies this
      ensures var ending := ReviewEnding(limits, task, input, heads, attempt);
        Did(ending.effects) && outcome == ending.outcome
    {
      hide ApplyAll, Own, StoreOk;
      var stopped := PauseOrInterruption(input.result);
      var changed := input.wrote || input.moved;
      if changed || stopped.Some? || !input.result.AgentDone? || input.problems {
        EndAttempt(Reviewing, attempt);
        return if changed || stopped.None? then MANUAL else stopped.value;
      }
      outcome := FollowVerdict(task, input, heads, attempt);
    }

    /** Records an approval, stops on a rejection, or asks for a fix while review cycles remain. */
    method FollowVerdict(task: Tasks.Task, input: StageInput, heads: Heads, attempt: nat)
      returns (outcome: StageOutcome)
      requires Valid() && input.ReviewInput? && !input.wrote && !input.moved
      requires PauseOrInterruption(input.result).None? && input.result.AgentDone? && !input.problems
      modifies this
      ensures var ending := ReviewEnding(limits, task, input, heads, attempt);
        Did(ending.effects) && outcome == ending.outcome
    {
      hide ApplyAll, Own, StoreOk;
      var verdict := EffectiveVerdict(input);
      if verdict == Approve {
        SaveCheckpoint(SaveReview(heads));
        EndAttempt(Reviewing, attempt);
        return Accepted(limits);
      }
      EndAttempt(Reviewing, attempt);
      if verdict == Reject {
        return MANUAL;
      }
      if task.reviewAttempts >= limits.maxReviewCycles {
        return Step(Failed);
      }
      SaveCheckpoint(SaveFixRequest(FixRequest(ReviewRequest(attempt), heads)));
      return Consuming(Fixing, ReviewAttempts);
    }

    method Analyze(input: StageInput) returns (outcome: StageOutcome, moved: bool)
      requires Valid() && input.AnalysisInput?
      modifies this
      ensures var plan := AnalysisPlan(limits, old(View()), Found(input, moved));
        Did(plan.effects) && outcome == plan.outcome
    {
      hide ApplyAll, Own, StoreOk, AnalysisEnding;
      moved := input.moved;
      match input.preparation {
        case RemoteDown(retryAt) => return PauseLimit(RemoteUnavailable, Some(retryAt)), moved;
        case PreparationInterrupted => return Interrupted, moved;
        case PreparationThrew => return Threw, moved;
        case WorkspacesReady =>
      }
      if input.loadFails {
        return Threw, moved;
      }
      if checkpoints.analysis == Some(input.digest) {
        return Step(Ready), moved;
      }
      var attempt;
      attempt, moved := RunReader(Analyzing, input.wrote);
      outcome := EndAnalysis(Found(input, moved), attempt);
    }

    method EndAnalysis(input: StageInput, attempt: nat) returns (outcome: StageOutcome)
      requires Valid() && input.AnalysisInput?
      modifies this
      ensures var ending := AnalysisEnding(input, attempt);
        Did(ending.effects) && outcome == ending.outcome
    {
      hide ApplyAll, Own, StoreOk;
      var stopped := PauseOrInterruption(input.result);
      var changed := input.wrote || input.moved;
      if changed || stopped.Some? || !input.result.AgentDone? || input.problems || input.clarification {
        EndAttempt(Analyzing, attempt);
        return if changed || stopped.None? then MANUAL else stopped.value;
      }
      SaveCheckpoint(SaveAnalysis(input.digest));
      EndAttempt(Analyzing, attempt);
      return Step(Ready);
    }

    method Prepare(input: StageInput) returns (outcome: StageOutcome)
      requires Valid() && input.ReadyInput?
      modifies this
      ensures var plan := ReadyPlan(limits, old(View()), input);
        Did(plan.effects) && outcome == plan.outcome
    {
      hide ApplyAll, Own, StoreOk, SetupEnding;
      if input.loadFails {
        return Threw;
      }
      var heads := LoadHeads();
      if !input.needsSetup || SameHeads(checkpoints.setup, heads) {
        return Step(Implementing);
      }
      var attempt := BeginAttempt(Ready);
      RunSetupCommands(Within(limits.units, input.touched));
      outcome := EndSetup(input, heads, attempt);
    }

    method EndSetup(input: StageInput, heads: Heads, attempt: nat) returns (outcome: StageOutcome)
      requires Valid() && input.ReadyInput?
      modifies this
      ensures var ending := SetupEnding(input, heads, attempt);
        Did(ending.effects) && outcome == ending.outcome
    {
      hide ApplyAll, Own, StoreOk;
      if input.aborted {
        EndAttempt(Ready, attempt);
        return Interrupted;
      }
      if !input.setupPassed {
        EndAttempt(Ready, attempt);
        return MANUAL;
      }
      RestoreAll();
      SaveCheckpoint(SaveSetup(heads));
      EndAttempt(Ready, attempt);
      return Step(Implementing);
    }

    // ---------------------------------------------------------------- delivery

    /** The first `steps` of pushing a unit, recording its commit, and recording its pull request. */
    method DeliverUnit(ghost start: Store, unit: Repository, heads: Heads, number: nat, steps: nat)
      requires Valid() && unit in heads && unit in rows && unit in start.rows && start.rows[unit] == rows[unit]
      requires steps <= 3
      modifies this
      ensures Did(UnitDeliveryEffects(start, heads, unit, number)[..steps])
      ensures attempts == old(attempts)
      ensures forall other :: other in old(rows) && other != unit ==> other in rows && rows[other] == old(rows)[other]
    {
      hide ApplyAll, Own, StoreOk;
      var pushed := rows[unit].(pushedCommit := Some(heads[unit]), state := PrCreated);
      if steps >= 1 {
        PushBranch(unit, heads);
      }
      if steps >= 2 {
        RecordWorkUnit(unit, pushed);
      }
      if steps >= 3 {
        RecordWorkUnit(unit, pushed.(pullRequestNumber := Some(number)));
      }
    }

    /** Since `trace` was `begun`, the first `n` units have been delivered entirely. */
    ghost predicate DeliveredTo(begun: seq<Effect>, start: Store, heads: Heads, numbers: seq<nat>, n: nat)
      requires n <= |limits.units|
      requires forall i :: 0 <= i < |limits.units| ==> limits.units[i] in start.rows && limits.units[i] in heads
      reads this
    {
      && Valid() && begun <= trace
      && Own(trace) == Own(begun) + FullDeliveries(start, heads, limits.units, numbers, n)
      && forall i :: n <= i < |limits.units| ==> rows[limits.units[i]] == start.rows[limits.units[i]]
    }

    /** Delivers the units in order, as far as the run gets. */
    method DeliverUnits(input: StageInput, heads: Heads)
      requires Valid() && input.DeliveryInput? && forall unit :: unit in limits.units ==> unit in heads
      modifies this
      ensures Did(DeliveryEffects(limits, old(View()), heads, input))
    {
      hide ApplyAll, Own, StoreOk, UnitDeliveryEffects;
      ghost var start, begun := View(), trace;
      var full := FullUnits(limits, input);
      var i := 0;
      while i < full
        invariant 0 <= i <= full
        invariant DeliveredTo(begun, start, heads, input.numbers, i)
        invariant base == old(base) && branches.Keys == old(branches).Keys
      {
        ghost var steps := UnitDeliveryEffects(start, heads, limits.units[i], NumberAt(input.numbers, i));
        assert steps[..3] == steps;
        DeliverUnit(start, limits.units[i], heads, NumberAt(input.numbers, i), 3);
        i := i + 1;
      }
      if full < |limits.units| {
        DeliverUnit(start, limits.units[full], heads, NumberAt(input.numbers, full), PartialSteps(input));
      }
    }

    /** Pushes the reviewed branches and records their pull requests; how those are found is the delivery model's. */
    method Deliver(input: StageInput) returns (outcome: StageOutcome)
      requires Valid() && input.DeliveryInput?
      modifies this
      ensures var plan := DeliveryPlan(limits, old(View()), input);
        Did(plan.effects) && outcome == plan.outcome
    {
      hide ApplyAll, Own, StoreOk, FullDeliveries;
      if input.loadFails {
        return Threw;
      }
      var heads := LoadHeads();
      if !SameHeads(checkpoints.reviewApproved, heads) || !SameHeads(checkpoints.qualityPassed, heads) {
        return MANUAL;
      }
      ghost var start := View();
      var attempt := BeginAttempt(PrCreated);
      SameRowsSameDelivery(start, View(), heads, input);
      DeliverUnits(input, heads);
      outcome := ConcludeDelivery(input, attempt);
    }

    lemma SameRowsSameDelivery(left: Store, right: Store, heads: Heads, input: StageInput)
      requires input.DeliveryInput? && left.rows == right.rows
      requires forall i :: 0 <= i < |limits.units| ==> limits.units[i] in left.rows && limits.units[i] in heads
      ensures DeliveryEffects(limits, left, heads, input) == DeliveryEffects(limits, right, heads, input)
    {
      SameRowsSameFull(left, right, heads, input.numbers, FullUnits(limits, input));
    }

    lemma {:induction false} SameRowsSameFull(left: Store, right: Store, heads: Heads, numbers: seq<nat>, full: nat)
      requires left.rows == right.rows && full <= |limits.units|
      requires forall i :: 0 <= i < |limits.units| ==> limits.units[i] in left.rows && limits.units[i] in heads
      ensures FullDeliveries(left, heads, limits.units, numbers, full)
           == FullDeliveries(right, heads, limits.units, numbers, full)
    {
      if full > 0 {
        SameRowsSameFull(left, right, heads, numbers, full - 1);
      }
    }

    method ConcludeDelivery(input: StageInput, attempt: nat) returns (outcome: StageOutcome)
      requires Valid() && input.DeliveryInput?
      modifies this
      ensures var ending := DeliveryConclusion(input, attempt);
        Did(ending.effects) && outcome == ending.outcome
    {
      hide ApplyAll, Own, StoreOk;
      match input.ending {
        case Delivered =>
          EndAttempt(PrCreated, attempt);
          return Step(WaitingCi);
        case DeliveryRejected =>
          EndAttempt(PrCreated, attempt);
          return MANUAL;
        case DeliveryWaits(until) => return Wait(until);
        case DeliveryInterrupted => return Interrupted;
        case DeliveryThrew => return Threw;
      }
    }

    // ---------------------------------------------------------------- observation

    /** Since `trace` was `begun`, the first `n` units have been seen and recorded. */
    ghost predicate ObservedTo(begun: seq<Effect>, start: Store, turns: seq<Observation.Turn>, n: nat,
                               deliveries: seq<Observation.UnitDelivery>)
      requires n <= |limits.units| && start.Prepared(limits.units)
      requires forall i :: 0 <= i < n ==> Observation.TurnAt(turns, i).Seen?
      reads this
    {
      && Valid() && begun <= trace && Own(trace) == Own(begun) + RecordEffects(limits, start, turns, n)
      && deliveries == Deliveries(limits, start, turns, n) && attempts == start.attempts
      && forall i :: n <= i < |limits.units| ==> rows[limits.units[i]] == start.rows[limits.units[i]]
    }

    /** Observes the units in order, recording each before the next; stops at the first that cannot be observed. */
    method ObserveAll(turns: seq<Observation.Turn>) returns (deliveries: seq<Observation.UnitDelivery>, seen: nat)
      requires Valid()
      modifies this
      ensures seen == Observation.StopsAt(turns, 0, |limits.units|)
      ensures Did(RecordEffects(limits, old(View()), turns, seen))
      ensures deliveries == Deliveries(limits, old(View()), turns, seen) && attempts == old(attempts)
    {
      hide ApplyAll, Own, StoreOk, Observation.Observe;
      ghost var start, begun := View(), trace;
      deliveries, seen := [], 0;
      while seen < |limits.units| && Observation.TurnAt(turns, seen).Seen?
        invariant 0 <= seen <= |limits.units|
        invariant forall i :: 0 <= i < seen ==> Observation.TurnAt(turns, i).Seen?
        invariant Observation.StopsAt(turns, seen, |limits.units|) == Observation.StopsAt(turns, 0, |limits.units|)
        invariant ObservedTo(begun, start, turns, seen, deliveries)
        invariant base == old(base) && branches.Keys == old(branches).Keys
        decreases |limits.units| - seen
      {
        deliveries := ObserveUnit(begun, start, turns, seen, deliveries);
        seen := seen + 1;
      }
    }

    method ObserveUnit(ghost begun: seq<Effect>, ghost start: Store, turns: seq<Observation.Turn>, i: nat,
                       earlier: seq<Observation.UnitDelivery>)
      returns (deliveries: seq<Observation.UnitDelivery>)
      requires i < |limits.units| && start.Prepared(limits.units)
      requires forall k :: 0 <= k <= i ==> Observation.TurnAt(turns, k).Seen?
      requires ObservedTo(begun, start, turns, i, earlier)
      modifies this
      ensures ObservedTo(begun, start, turns, i + 1, deliveries)
      ensures base == old(base) && branches.Keys == old(branches).Keys
    {
      hide ApplyAll, Own, StoreOk, Observation.Observe;
      var unit, turn := limits.units[i], Observation.TurnAt(turns, i);
      var delivery := Observation.Observe(PolicyOf(limits, unit), rows[unit], turn.facts, turn.now);
      RecordWorkUnit(unit, rows[unit].(
        state := Observation.UnitState(delivery),
        mergeCommit := if delivery.UnitMerged? then Some(delivery.mergeCommit) else None,
        sighting := Observation.Sighted(rows[unit], turn.facts, turn.now)));
      deliveries := earlier + [delivery];
      RecordsNext(start, turns, i);
    }

    lemma RecordsNext(start: Store, turns: seq<Observation.Turn>, i: nat)
      requires i < |limits.units| && start.Prepared(limits.units)
      requires forall k :: 0 <= k <= i ==> Observation.TurnAt(turns, k).Seen?
      ensures RecordEffects(limits, start, turns, i + 1)
           == RecordEffects(limits, start, turns, i)
              + [RecordEffect(limits, start, limits.units[i], Observation.TurnAt(turns, i))]
      ensures Deliveries(limits, start, turns, i + 1)
           == Deliveries(limits, start, turns, i)
              + [Observed(limits, start, limits.units[i], Observation.TurnAt(turns, i))]
    {
    }

    /** One pass over the pull requests: every status is recorded before anything is decided. */
    method Observe(task: Tasks.Task, input: StageInput) returns (outcome: StageOutcome)
      requires Valid() && input.ObservationInput?
      modifies this
      ensures var plan := ObservationPlan(limits, task, old(View()), input);
        Did(plan.effects) && outcome == plan.outcome
    {
      hide ApplyAll, Own, StoreOk, Observation.Decide, RecordEffects, Deliveries;
      if !input.matches {
        return MANUAL;
      }
      ghost var start := View();
      var deliveries, seen := ObserveAll(input.turns);
      if seen < |limits.units| {
        return ObservationOutcome(Observation.StoppedBy(Observation.TurnAt(input.turns, seen)));
      }
      var ending := Observation.Decide(task.state, deliveries, input.commented, input.retryAt, input.pollAt);
      if Observation.Concludes(ending) {
        var attempt := BeginAttempt(task.state);
        EndAttempt(task.state, attempt);
      }
      return ObservationOutcome(ending);
    }

    // ---------------------------------------------------------------- any stage

    /** The handler for the task's state; an input of another stage is a run that fails at once. */
    method RunHandler(task: Tasks.Task, input: StageInput) returns (outcome: StageOutcome, moved: bool)
      requires Valid()
      modifies this
      ensures var plan := StagePlan(limits, task, old(View()), Found(input, moved));
        Did(plan.effects) && outcome == plan.outcome
    {
      hide ApplyAll, Own, StoreOk, AnalysisPlan, ReadyPlan, ImplementationPlan, TestingPlan, FixingPlan, ReviewPlan;
      hide DeliveryPlan, ObservationPlan;
      outcome, moved := Threw, false;
      if task.state == Analyzing && input.AnalysisInput? {
        outcome, moved := Analyze(input);
      } else if task.state == Ready && input.ReadyInput? {
        outcome := Prepare(input);
      } else if task.state == Implementing && input.WorkInput? {
        outcome, moved := Implement(task, input);
      } else if task.state == Testing && input.TestInput? {
        outcome := Test(task, input);
      } else if task.state == Fixing && input.WorkInput? {
        outcome, moved := Fix(input);
      } else if task.state == Reviewing && input.ReviewInput? {
        outcome, moved := Review(task, input);
      } else if task.state == PrCreated && input.DeliveryInput? {
        outcome := Deliver(input);
      } else if task.state in {WaitingCi, ReadyForHumanReview} && input.ObservationInput? {
        outcome := Observe(task, input);
      }
    }

    /**
     One run of the handler for the task's state. Others may commit before it begins and before each of its effects.
     Among their commits it performs exactly the plan for the store it found, and after every single effect, its own or
     theirs, the store is in order.
     */
    method RunStage(task: Tasks.Task, input: StageInput) returns (outcome: StageOutcome, moved: bool)
      requires Valid() && StoreOk(limits, View())
      modifies this
      ensures Valid() && StoreOk(limits, View()) && SameRest(old(View()), base)
      ensures RunInOrder(limits, StageRun(task, Found(input, moved), outcome, base, trace))
      ensures View() == ApplyAll(base, trace)
    {
      hide ApplyAll, Own, StoreOk, StagePlan, WovenSoFar;
      Meanwhile();
      base, trace := View(), [];
      NothingAllowed(limits, base);
      assert Own([]) == [] by {
        NothingIsOwn();
      }
      outcome, moved := RunHandler(task, input);
      StageCrashSafe(limits, task, base, Found(input, moved), trace);
      PrefixesInOrder(limits, base, trace);
    }
  }

  lemma NothingIsOwn()
    ensures Own([]) == []
  {
  }

  lemma SameRestItself(store: Store)
    ensures SameRest(store, store)
  {
  }

  lemma SameRestJoins(first: Store, second: Store, third: Store)
    requires SameRest(first, second) && SameRest(second, third)
    ensures SameRest(first, third)
  {
  }

  lemma PrefixesInOrder(limits: Limits, store: Store, woven: seq<Effect>)
    requires StoreOk(limits, store) && WovenSoFar(limits, store, woven)
    ensures forall n :: 0 <= n <= |woven| ==> StoreOk(limits, ApplyAll(store, woven[..n]))
  {
    hide StoreOk, ApplyAll, Follows;
    forall n | 0 <= n <= |woven| ensures StoreOk(limits, ApplyAll(store, woven[..n])) {
      CrashAnywhere(limits, store, woven, n);
    }
  }
}
