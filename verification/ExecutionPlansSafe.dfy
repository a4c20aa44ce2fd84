/** Every handler's plan obeys the rules of the store, step by step. */
module ExecutionPlansSafe {
  import opened Wrappers
  import opened Domain
  import opened Commits
  import opened ExecutionStore
  import opened StagePlans
  import opened ExecutionSafety
  import opened ExecutionDrift
  import Observation
  import Tasks

  predicate DistinctUnits(units: seq<Repository>) {
    forall i, j :: 0 <= i < j < |units| ==> units[i] != units[j]
  }

  // ------------------------------------------------------------------ lists of effects

  lemma Extend(limits: Limits, store: Store, effects: seq<Effect>, effect: Effect)
    requires AllAllowed(limits, store, effects) && Allowed(limits, ApplyAll(store, effects), effect)
    ensures AllAllowed(limits, store, effects + [effect])
    ensures ApplyAll(store, effects + [effect]) == Apply(ApplyAll(store, effects), effect)
  {
    assert (effects + [effect])[..|effects|] == effects;
  }

  lemma JoinNext(limits: Limits, store: Store, first: seq<Effect>, second: seq<Effect>, effect: Effect)
    requires AllAllowed(limits, store, first + second)
    requires ApplyAll(store, first + second) == ApplyAll(ApplyAll(store, first), second)
    requires Allowed(limits, ApplyAll(ApplyAll(store, first), second), effect)
    ensures AllAllowed(limits, store, first + (second + [effect]))
    ensures ApplyAll(store, first + (second + [effect])) == ApplyAll(ApplyAll(store, first), second + [effect])
  {
    hide ApplyAll, AllAllowed;
    Extend(limits, store, first + second, effect);
    ApplyNext(ApplyAll(store, first), second, effect);
    assert first + (second + [effect]) == first + second + [effect];
  }

  lemma {:induction false} Join(limits: Limits, store: Store, first: seq<Effect>, second: seq<Effect>)
    requires AllAllowed(limits, store, first) && AllAllowed(limits, ApplyAll(store, first), second)
    ensures AllAllowed(limits, store, first + second)
    ensures ApplyAll(store, first + second) == ApplyAll(ApplyAll(store, first), second)
  {
    if |second| == 0 {
      assert first + second == first;
    } else {
      var shorter, last := second[..|second| - 1], second[|second| - 1];
      assert second == shorter + [last];
      Join(limits, store, first, shorter);
      JoinNext(limits, store, first, shorter, last);
    }
  }

  lemma NothingAllowed(limits: Limits, store: Store)
    ensures AllAllowed(limits, store, []) && ApplyAll(store, []) == store
  {
  }

  lemma StoreIsPrepared(limits: Limits, store: Store)
    requires StoreOk(limits, store)
    ensures store.Prepared(limits.units)
  {
  }

  lemma One(limits: Limits, store: Store, effect: Effect)
    requires Allowed(limits, store, effect)
    ensures AllAllowed(limits, store, [effect]) && ApplyAll(store, [effect]) == Apply(store, effect)
  {
    Extend(limits, store, [], effect);
    assert [] + [effect] == [effect];
  }

  lemma Two(limits: Limits, store: Store, first: Effect, second: Effect)
    requires Allowed(limits, store, first) && Allowed(limits, Apply(store, first), second)
    ensures AllAllowed(limits, store, [first, second])
    ensures ApplyAll(store, [first, second]) == Apply(Apply(store, first), second)
  {
    One(limits, store, first);
    Extend(limits, store, [first], second);
    assert [first] + [second] == [first, second];
  }

  lemma Three(limits: Limits, store: Store, first: Effect, second: Effect, third: Effect)
    requires Allowed(limits, store, first) && Allowed(limits, Apply(store, first), second)
    requires Allowed(limits, Apply(Apply(store, first), second), third)
    ensures AllAllowed(limits, store, [first, second, third])
    ensures ApplyAll(store, [first, second, third]) == Apply(Apply(Apply(store, first), second), third)
  {
    hide ApplyAll, AllAllowed;
    Two(limits, store, first, second);
    Extend(limits, store, [first, second], third);
    assert [first, second] + [third] == [first, second, third];
  }

  // ------------------------------------------------------------------ common beginnings

  /** The open attempt of a run. */
  predicate Current(store: Store, stage: TaskState, attempt: nat) {
    attempt in store.AttemptsOf(stage) && Latest(store.AttemptsOf(stage)) == attempt
  }

  /** A run has opened its attempt of `stage`; nothing else that a later effect depends on has changed. */
  ghost predicate Underway(before: Store, now: Store, stage: TaskState) {
    && Current(now, stage, NextAttempt(before.AttemptsOf(stage)))
    && now.checkpoints == before.checkpoints && now.branches == before.branches && now.rows == before.rows
    && now.nextCommit == before.nextCommit
    && (forall id :: FixRequested(id) in now.events <==> FixRequested(id) in before.events)
  }

  ghost predicate StageBegun(limits: Limits, store: Store, begun: seq<Effect>, stage: TaskState) {
    AllAllowed(limits, store, begun) && Underway(store, ApplyAll(store, begun), stage)
  }

  lemma AttemptBegins(limits: Limits, store: Store, stage: TaskState, effect: Effect)
    requires NumberingOk(store) && (effect.RunAgent? || effect.RunSetup?)
    requires effect.RunAgent? && effect.writes ==> store.dirty == {}
    ensures StageBegun(limits, store, [StartAttempt(stage), effect], stage)
  {
    StartKeepsOrder(store, stage);
    Two(limits, store, StartAttempt(stage), effect);
  }

  lemma ReaderBegins(limits: Limits, store: Store, stage: TaskState, wrote: bool)
    requires StoreOk(limits, store)
    ensures StageBegun(limits, store, ReaderEffects(limits.units, stage, wrote), stage)
  {
    AttemptBegins(limits, store, stage, RunAgent(false, if wrote then set unit | unit in limits.units else {}));
  }

  lemma WorkerBegins(limits: Limits, store: Store, stage: TaskState, input: StageInput)
    requires StoreOk(limits, store) && input.WorkInput?
    ensures StageBegun(limits, store, WorkerEffects(limits.units, stage, input), stage)
  {
    hide ApplyAll, AllAllowed;
    var run := RunAgent(true, Within(limits.units, input.touched));
    var clean := Apply(store, Restore);
    One(limits, store, Restore);
    AttemptBegins(limits, clean, stage, run);
    Join(limits, store, [Restore], [StartAttempt(stage), run]);
    assert [Restore] + [StartAttempt(stage), run] == WorkerEffects(limits.units, stage, input);
  }

  /** The endings that complete the attempt, perhaps after discarding what the run left. */
  lemma Completes(limits: Limits, store: Store, stage: TaskState, attempt: nat)
    requires Current(store, stage, attempt)
    ensures AllAllowed(limits, store, [CompleteAttempt(stage, attempt)])
    ensures AllAllowed(limits, store, [Restore, CompleteAttempt(stage, attempt)])
  {
    One(limits, store, CompleteAttempt(stage, attempt));
    Two(limits, store, Restore, CompleteAttempt(stage, attempt));
  }

  // ------------------------------------------------------------------ commits

  /** What a unit must satisfy for a commit of `origin`. */
  ghost predicate MayCommit(store: Store, unit: Repository, origin: Origin) {
    && unit in store.branches && |store.branches[unit]| > 0
    && match origin
       case ImplementationCommit(_) =>
         forall i :: 0 <= i < |store.branches[unit]| ==> !store.branches[unit][i].origin.ImplementationCommit?
       case FixCommit(id) =>
         && store.checkpoints.fixRequest.Some? && store.checkpoints.fixRequest.value.id == id
         && unit in store.checkpoints.fixRequest.value.heads
         && store.checkpoints.fixRequest.value.heads[unit] in store.branches[unit]
         && Unfixed(store.branches[unit], id)
       case _ => false
  }

  /** What a list of commits leaves alone. */
  ghost predicate OnlyCommitted(before: Store, after: Store, units: seq<Repository>) {
    && after.checkpoints == before.checkpoints && after.attempts == before.attempts && after.events == before.events
    && after.rows == before.rows && after.branches.Keys == before.branches.Keys
    && (forall unit :: unit in before.branches && |before.branches[unit]| > 0 ==> |after.branches[unit]| > 0)
    && (forall unit :: unit in before.branches && unit !in units ==> after.branches[unit] == before.branches[unit])
  }

  /** One more commit, after others on other units. */
  lemma CommitStep(limits: Limits, before: Store, now: Store, units: seq<Repository>, unit: Repository, commit: Commit)
    requires OnlyCommitted(before, now, units) && unit !in units && MayCommit(before, unit, commit.origin)
    requires now.nextCommit <= commit.id
    ensures Allowed(limits, now, MakeCommit(unit, commit))
    ensures OnlyCommitted(before, Apply(now, MakeCommit(unit, commit)), units + [unit])
  {
    assert now.branches[unit] == before.branches[unit];
    var after := Apply(now, MakeCommit(unit, commit));
    forall other | other in before.branches && other !in units + [unit]
      ensures after.branches[other] == before.branches[other]
    {
      assert other !in units && other != unit by {
        assert unit in units + [unit] && forall u :: u in units ==> u in units + [unit];
      }
    }
  }

  lemma OnlyCommittedMore(before: Store, after: Store, units: seq<Repository>, more: seq<Repository>)
    requires OnlyCommitted(before, after, units) && units <= more
    ensures OnlyCommitted(before, after, more)
  {
    assert forall unit :: unit in units ==> unit in more;
  }

  /** The commits made so far on `units`: allowed, on those branches only, one new identity each. */
  ghost predicate CommitsDone(limits: Limits, store: Store, effects: seq<Effect>, units: seq<Repository>) {
    && AllAllowed(limits, store, effects)
    && OnlyCommitted(store, ApplyAll(store, effects), units)
    && ApplyAll(store, effects).nextCommit == store.nextCommit + |effects|
  }

  lemma NothingCommitted(limits: Limits, store: Store)
    ensures CommitsDone(limits, store, [], [])
  {
  }

  lemma CommitsDoneNext(limits: Limits, store: Store, effects: seq<Effect>, units: seq<Repository>, unit: Repository,
                        origin: Origin)
    requires CommitsDone(limits, store, effects, units) && unit !in units && MayCommit(store, unit, origin)
    ensures CommitsDone(limits, store, effects + [MakeCommit(unit, Commit(store.nextCommit + |effects|, origin))],
                        units + [unit])
    ensures CommitsDone(limits, store, effects, units + [unit])
  {
    hide ApplyAll, AllAllowed;
    var commit := Commit(store.nextCommit + |effects|, origin);
    CommitStep(limits, store, ApplyAll(store, effects), units, unit, commit);
    Extend(limits, store, effects, MakeCommit(unit, commit));
    OnlyCommittedMore(store, ApplyAll(store, effects), units, units + [unit]);
  }

  ghost predicate AllMayCommit(store: Store, units: seq<Repository>, origin: Origin) {
    DistinctUnits(units) && forall i :: 0 <= i < |units| ==> MayCommit(store, units[i], origin)
  }

  lemma LastMayCommit(store: Store, units: seq<Repository>, origin: Origin)
    requires AllMayCommit(store, units, origin) && |units| > 0
    ensures AllMayCommit(store, units[..|units| - 1], origin)
    ensures MayCommit(store, units[|units| - 1], origin) && units[|units| - 1] !in units[..|units| - 1]
    ensures units[..|units| - 1] + [units[|units| - 1]] == units
  {
    var shorter := units[..|units| - 1];
    forall i | 0 <= i < |shorter| ensures MayCommit(store, shorter[i], origin) {
      assert MayCommit(store, units[i], origin);
    }
  }

  lemma {:induction false} CommitsAllowed(limits: Limits, store: Store, units: seq<Repository>,
                                          changed: set<Repository>, origin: Origin)
    requires AllMayCommit(store, units, origin)
    ensures CommitsDone(limits, store, CommitEffects(units, changed, origin, store.nextCommit), units)
  {
    hide MayCommit, AllMayCommit, CommitsDone;
    if |units| == 0 {
      NothingCommitted(limits, store);
    } else {
      LastMayCommit(store, units, origin);
      var shorter, unit := units[..|units| - 1], units[|units| - 1];
      CommitsAllowed(limits, store, shorter, changed, origin);
      CommitsDoneNext(limits, store, CommitEffects(shorter, changed, origin, store.nextCommit), shorter, unit, origin);
    }
  }

  /** `heads` names the current head of each of its units. */
  predicate AreHeads(store: Store, heads: Heads) {
    forall unit :: unit in heads
        ==> unit in store.branches && |store.branches[unit]| > 0 && heads[unit] == store.Head(unit)
  }

  lemma CommitMovesHead(store: Store, heads: Heads, unit: Repository, commit: Commit)
    requires AreHeads(store, heads) && unit in store.branches
    ensures AreHeads(Apply(store, MakeCommit(unit, commit)), heads[unit := commit])
  {
  }

  lemma HeadAdded(store: Store, effects: seq<Effect>, reached: Heads, unit: Repository, commit: Commit)
    requires AreHeads(ApplyAll(store, effects), reached) && unit in reached
    ensures AreHeads(ApplyAll(store, effects + [MakeCommit(unit, commit)]), reached[unit := commit])
  {
    ApplyNext(store, effects, MakeCommit(unit, commit));
    CommitMovesHead(ApplyAll(store, effects), reached, unit, commit);
  }

  lemma HeadsReachedNext(store: Store, heads: Heads, units: seq<Repository>, changed: set<Repository>, origin: Origin)
    requires |units| > 0 && units[|units| - 1] in heads
    requires var shorter := units[..|units| - 1];
      var reached := CommittedHeads(heads, shorter, changed, origin, store.nextCommit);
      && reached.Keys == heads.Keys
      && AreHeads(ApplyAll(store, CommitEffects(shorter, changed, origin, store.nextCommit)), reached)
    ensures CommittedHeads(heads, units, changed, origin, store.nextCommit).Keys == heads.Keys
    ensures AreHeads(ApplyAll(store, CommitEffects(units, changed, origin, store.nextCommit)),
                     CommittedHeads(heads, units, changed, origin, store.nextCommit))
  {
    var shorter, unit := units[..|units| - 1], units[|units| - 1];
    if unit in changed {
      var effects := CommitEffects(shorter, changed, origin, store.nextCommit);
      HeadAdded(store, effects, CommittedHeads(heads, shorter, changed, origin, store.nextCommit), unit,
        Commit(store.nextCommit + |effects|, origin));
    }
  }

  /** The recorded commit vector is the vector of branch heads after the commits. */
  lemma {:induction false} CommitsReachHeads(store: Store, heads: Heads, units: seq<Repository>,
                                             changed: set<Repository>, origin: Origin)
    requires AreHeads(store, heads)
    requires forall unit :: unit in units ==> unit in heads
    ensures CommittedHeads(heads, units, changed, origin, store.nextCommit).Keys == heads.Keys
    ensures AreHeads(ApplyAll(store, CommitEffects(units, changed, origin, store.nextCommit)),
                     CommittedHeads(heads, units, changed, origin, store.nextCommit))
  {
    if |units| > 0 {
      CommitsReachHeads(store, heads, units[..|units| - 1], changed, origin);
      HeadsReachedNext(store, heads, units, changed, origin);
    }
  }

  lemma HeadsAreHeads(store: Store, units: seq<Repository>)
    requires store.Prepared(units)
    ensures AreHeads(store, HeadsOf(store, units))
    ensures forall unit :: unit in units ==> unit in HeadsOf(store, units)
  {
  }

  /** A whole batch of commits: allowed, and it ends with the recorded vector as the branch heads. */
  lemma BatchAllowed(limits: Limits, store: Store, changed: set<Repository>, origin: Origin)
    requires store.Prepared(limits.units) && AllMayCommit(store, limits.units, origin)
    ensures var effects := CommitEffects(limits.units, changed, origin, store.nextCommit);
      var after := ApplyAll(store, effects);
      && CommitsDone(limits, store, effects, limits.units)
      && after.Prepared(limits.units)
      && CommittedHeads(HeadsOf(store, limits.units), limits.units, changed, origin, store.nextCommit)
          == HeadsOf(after, limits.units)
  {
    hide ApplyAll, AllAllowed;
    var heads := HeadsOf(store, limits.units);
    HeadsAreHeads(store, limits.units);
    CommitsAllowed(limits, store, limits.units, changed, origin);
    CommitsReachHeads(store, heads, limits.units, changed, origin);
    var after := ApplyAll(store, CommitEffects(limits.units, changed, origin, store.nextCommit));
    assert after.Prepared(limits.units);
    HeadsAreHeads(after, limits.units);
    assert heads.Keys == HeadsOf(after, limits.units).Keys;
  }

  // ------------------------------------------------------------------ implementation and fixes

  /** Every unit may take a commit of `origin`, and `heads` are where the branches stand. */
  ghost predicate ReadyToCommit(limits: Limits, store: Store, heads: Heads, origin: Origin) {
    store.Prepared(limits.units) && AllMayCommit(store, limits.units, origin) && heads == HeadsOf(store, limits.units)
  }

  /** What a batch of commits may be recorded as: the implementation with these heads, or the fix that was asked for. */
  ghost predicate RecordFits(limits: Limits, store: Store, record: Effect, commits: Heads) {
    if record.SaveImplementation? then
      record.implementation.attempt <= limits.maxImplementationAttempts && record.implementation.commits == commits
    else record.SaveFixApplied? && Allowed(limits, store, record)
  }

  /** Commit every changed unit, record the result, and complete the attempt. */
  lemma CommittedAllowed(limits: Limits, store: Store, heads: Heads, changed: set<Repository>, origin: Origin,
                         record: Effect, stage: TaskState, attempt: nat)
    requires ReadyToCommit(limits, store, heads, origin) && Current(store, stage, attempt)
    requires RecordFits(limits, store, record, CommittedHeads(heads, limits.units, changed, origin, store.nextCommit))
    ensures AllAllowed(limits, store,
      CommitEffects(limits.units, changed, origin, store.nextCommit) + [record, CompleteAttempt(stage, attempt)])
  {
    hide ApplyAll, AllAllowed;
    var commits := CommitEffects(limits.units, changed, origin, store.nextCommit);
    BatchAllowed(limits, store, changed, origin);
    var after := ApplyAll(store, commits);
    HeadsAreHeads(after, limits.units);
    HeadsLieInBranches(after, limits.units);
    Two(limits, after, record, CompleteAttempt(stage, attempt));
    Join(limits, store, commits, [record, CompleteAttempt(stage, attempt)]);
  }

  lemma HeadsLieInBranches(store: Store, units: seq<Repository>)
    requires store.Prepared(units)
    ensures InBranches(store, units, HeadsOf(store, units)) && OnBranches(store, HeadsOf(store, units))
  {
    var heads := HeadsOf(store, units);
    forall i | 0 <= i < |units| ensures units[i] in heads && heads[units[i]] in store.branches[units[i]] {
      assert units[i] in heads;
    }
  }

  lemma RejectedAllowed(limits: Limits, store: Store, number: nat, attempt: nat)
    requires Current(store, Implementing, attempt)
    ensures AllAllowed(limits, store, Rejected(number, attempt))
    ensures AllAllowed(limits, store, [Restore] + Rejected(number, attempt))
  {
    hide ApplyAll, AllAllowed;
    Three(limits, store, Restore, SaveRejection(number), CompleteAttempt(Implementing, attempt));
    Three(limits, Apply(store, Restore), Restore, SaveRejection(number), CompleteAttempt(Implementing, attempt));
    One(limits, store, Restore);
    Join(limits, store, [Restore], Rejected(number, attempt));
  }

  /** Whatever the implementer did, the effects that follow obey the rules. */
  lemma ImplementationEndingAllowed(limits: Limits, store: Store, input: StageInput, heads: Heads, number: nat,
                                    attempt: nat)
    requires input.WorkInput? && Current(store, Implementing, attempt) && number <= limits.maxImplementationAttempts
    requires ReadyToCommit(limits, store, heads, ImplementationCommit(number))
    ensures AllAllowed(limits, store,
                       ImplementationEnding(limits, input, heads, store.nextCommit, number, attempt).effects)
  {
    hide ApplyAll, AllAllowed, CommitEffects, CommittedHeads, ReadyToCommit;
    Completes(limits, store, Implementing, attempt);
    RejectedAllowed(limits, store, number, attempt);
    var origin := ImplementationCommit(number);
    var commits := CommittedHeads(heads, limits.units, input.changed, origin, store.nextCommit);
    CommittedAllowed(limits, store, heads, input.changed, origin, SaveImplementation(Implementation(number, commits)),
                     Implementing, attempt);
  }

  lemma UntouchedBranch(limits: Limits, store: Store, i: nat)
    requires BranchesOk(limits, store) && i < |limits.units| && !HasUnrecordedCommits(store, limits.units)
    ensures |store.branches[limits.units[i]]| == 1 && store.branches[limits.units[i]][0].origin == BaseCommit
  {
    var branch := store.branches[limits.units[i]];
    assert BranchOk(branch, store.nextCommit, store.nextForeign);
    assert store.Head(limits.units[i]) == branch[0];
  }

  lemma ReadyToImplement(limits: Limits, store: Store, now: Store, origin: Origin)
    requires BranchesOk(limits, store) && DistinctUnits(limits.units) && !HasUnrecordedCommits(store, limits.units)
    requires now.branches == store.branches && now.rows == store.rows && origin.ImplementationCommit?
    ensures ReadyToCommit(limits, now, HeadsOf(store, limits.units), origin)
  {
    forall i | 0 <= i < |limits.units| ensures MayCommit(now, limits.units[i], origin) {
      UntouchedBranch(limits, store, i);
    }
  }

  lemma ImplementationAllowed(limits: Limits, task: Tasks.Task, store: Store, input: StageInput)
    requires StoreOk(limits, store) && DistinctUnits(limits.units) && input.WorkInput?
    ensures AllAllowed(limits, store, ImplementationPlan(limits, task, store, input).effects)
  {
    hide ApplyAll, AllAllowed, ImplementationEnding, ReadyToCommit;
    NothingAllowed(limits, store);
    if ImplementationRuns(limits, task, store, input) {
      var number := task.implementationAttempts + 1;
      var begun := WorkerEffects(limits.units, Implementing, input);
      WorkerBegins(limits, store, Implementing, input);
      var now := ApplyAll(store, begun);
      var heads, attempt := HeadsOf(store, limits.units), NextAttempt(store.AttemptsOf(Implementing));
      ReadyToImplement(limits, store, now, ImplementationCommit(number));
      ImplementationEndingAllowed(limits, now, input, heads, number, attempt);
      Join(limits, store, begun, ImplementationEnding(limits, input, heads, store.nextCommit, number, attempt).effects);
    }
  }

  lemma FixRecordedAllowed(limits: Limits, store: Store, id: RequestId, attempt: nat)
    requires Current(store, Fixing, attempt)
    requires store.checkpoints.fixRequest.Some? && store.checkpoints.fixRequest.value.id == id
    ensures AllAllowed(limits, store, [Restore, SaveFixApplied(id), CompleteAttempt(Fixing, attempt)])
  {
    Three(limits, store, Restore, SaveFixApplied(id), CompleteAttempt(Fixing, attempt));
  }

  /** Whatever the fixer did, the effects that follow obey the rules. */
  lemma FixingEndingAllowed(limits: Limits, store: Store, input: StageInput, heads: Heads, id: RequestId, attempt: nat)
    requires input.WorkInput? && Current(store, Fixing, attempt)
    requires store.checkpoints.fixRequest.Some? && store.checkpoints.fixRequest.value.id == id
    requires ReadyToCommit(limits, store, heads, FixCommit(id))
    ensures AllAllowed(limits, store, FixingEnding(limits, input, store.nextCommit, id, attempt).effects)
  {
    hide ApplyAll, AllAllowed, CommitEffects, CommittedHeads, ReadyToCommit;
    Completes(limits, store, Fixing, attempt);
    FixRecordedAllowed(limits, store, id, attempt);
    CommittedAllowed(limits, store, heads, input.changed, FixCommit(id), SaveFixApplied(id), Fixing, attempt);
  }

  lemma ReadyToFix(limits: Limits, store: Store, now: Store)
    requires BranchesOk(limits, store) && FixesOk(store) && DistinctUnits(limits.units)
    requires store.checkpoints.fixRequest.Some?
    requires store.checkpoints.fixRequest.value.heads == HeadsOf(store, limits.units)
    requires now.branches == store.branches && now.rows == store.rows && now.checkpoints == store.checkpoints
    ensures ReadyToCommit(limits, now, HeadsOf(store, limits.units), FixCommit(store.checkpoints.fixRequest.value.id))
  {
    HeadsAreHeads(store, limits.units);
    forall i | 0 <= i < |limits.units|
      ensures MayCommit(now, limits.units[i], FixCommit(store.checkpoints.fixRequest.value.id))
    {
      assert limits.units[i] in HeadsOf(store, limits.units);
      RequestStillOpen(limits, store, limits.units[i]);
    }
  }

  lemma FixingAllowed(limits: Limits, store: Store, input: StageInput)
    requires StoreOk(limits, store) && DistinctUnits(limits.units) && input.WorkInput?
    ensures AllAllowed(limits, store, FixingPlan(limits, store, input).effects)
  {
    hide ApplyAll, AllAllowed, FixingEnding, ReadyToCommit;
    NothingAllowed(limits, store);
    if FixingRuns(limits, store, input) {
      var id := store.checkpoints.fixRequest.value.id;
      var begun := WorkerEffects(limits.units, Fixing, input);
      WorkerBegins(limits, store, Fixing, input);
      var now := ApplyAll(store, begun);
      var heads, attempt := HeadsOf(store, limits.units), NextAttempt(store.AttemptsOf(Fixing));
      ReadyToFix(limits, store, now);
      FixingEndingAllowed(limits, now, input, heads, id, attempt);
      Join(limits, store, begun, FixingEnding(limits, input, store.nextCommit, id, attempt).effects);
    }
  }

  // ------------------------------------------------------------------ fix requests

  /** The request a run makes under its own attempt is new: that attempt was never completed before. */
  lemma RequestIsNew(store: Store, id: RequestId)
    requires NumberingOk(store) && FixesOk(store) && id.attempt == NextAttempt(store.AttemptsOf(RequestStage(id)))
    ensures FixRequested(id) !in store.events
  {
    StartKeepsOrder(store, RequestStage(id));
  }

  lemma RequestAllowed(limits: Limits, store: Store, id: RequestId, heads: Heads)
    requires Current(store, RequestStage(id), id.attempt) && FixRequested(id) !in store.events
    requires OnBranches(store, heads)
    ensures AllAllowed(limits, store,
                       [CompleteAttempt(RequestStage(id), id.attempt), SaveFixRequest(FixRequest(id, heads))])
  {
    Two(limits, store, CompleteAttempt(RequestStage(id), id.attempt), SaveFixRequest(FixRequest(id, heads)));
  }

  // ------------------------------------------------------------------ quality gates

  /** The gates of `units` ran in order on the heads of `store`, each on a clean worktree. */
  ghost predicate GatesRan(store: Store, after: Store, input: StageInput, units: seq<Repository>)
    requires input.TestInput?
  {
    && after.checkpoints == store.checkpoints && after.attempts == store.attempts && after.branches == store.branches
    && after.rows == store.rows && after.nextCommit == store.nextCommit
    && (forall unit :: unit in after.dirty ==> unit in units)
    && |after.events| == |store.events| + |units| && store.events <= after.events
    && forall k :: 0 <= k < |units| ==>
         && units[k] in store.branches && |store.branches[units[k]]| > 0
         && after.events[|store.events| + k]
            == GateRun(units[k], store.Head(units[k]), Report(input, k) == GatePassed, true)
  }

  lemma GateNext(limits: Limits, store: Store, now: Store, input: StageInput, units: seq<Repository>, unit: Repository)
    requires input.TestInput? && GatesRan(store, now, input, units) && unit !in units
    requires unit in store.branches && |store.branches[unit]| > 0
    ensures var gate := RunGate(unit, Report(input, |units|) == GatePassed);
      Allowed(limits, now, gate) && GatesRan(store, Apply(now, gate), input, units + [unit])
  {
    var after := Apply(now, RunGate(unit, Report(input, |units|) == GatePassed));
    assert unit in units + [unit];
    forall other | other in after.dirty ensures other in units + [unit] {
      assert other in now.dirty || other == unit;
    }
  }

  lemma NoGatesRan(store: Store, input: StageInput)
    requires input.TestInput? && store.dirty == {}
    ensures GatesRan(store, store, input, [])
  {
  }

  lemma {:induction false} GatesAllowed(limits: Limits, store: Store, input: StageInput, units: seq<Repository>)
    requires input.TestInput? && store.dirty == {} && DistinctUnits(units)
    requires forall unit :: unit in units ==> unit in store.branches && |store.branches[unit]| > 0
    ensures AllAllowed(limits, store, GateEffects(input, units))
    ensures GatesRan(store, ApplyAll(store, GateEffects(input, units)), input, units)
  {
    hide ApplyAll, AllAllowed, GatesRan;
    if |units| == 0 {
      assert GateEffects(input, units) == [];
      NothingAllowed(limits, store);
      NoGatesRan(store, input);
    } else {
      var shorter, unit := units[..|units| - 1], units[|units| - 1];
      assert units == shorter + [unit] && unit !in shorter;
      GatesAllowed(limits, store, input, shorter);
      var gate := RunGate(unit, Report(input, |shorter|) == GatePassed);
      GateNext(limits, store, ApplyAll(store, GateEffects(input, shorter)), input, shorter, unit);
      Extend(limits, store, GateEffects(input, shorter), gate);
      assert GateEffects(input, units) == GateEffects(input, shorter) + [gate];
    }
  }

  /**
   The gates of `units` are through: under the run's attempt, at the end of the history, on the heads it began with.
   */
  ghost predicate Tested(store: Store, now: Store, input: StageInput, units: seq<Repository>)
    requires input.TestInput?
  {
    && Underway(store, now, Testing)
    && |now.events| == |store.events| + |units|
    && forall k :: 0 <= k < |units| ==>
         && units[k] in store.branches && |store.branches[units[k]]| > 0
         && now.events[|store.events| + k]
            == GateRun(units[k], store.Head(units[k]), Report(input, k) == GatePassed, true)
  }

  lemma GatesKeepRequests(before: Store, after: Store, input: StageInput, units: seq<Repository>, id: RequestId)
    requires input.TestInput? && GatesRan(before, after, input, units)
    ensures FixRequested(id) in after.events <==> FixRequested(id) in before.events
  {
    if FixRequested(id) in before.events {
      var i :| 0 <= i < |before.events| && before.events[i] == FixRequested(id);
      assert after.events[i] == FixRequested(id);
    } else {
      forall j | 0 <= j < |after.events| ensures after.events[j] != FixRequested(id) {
        if j >= |before.events| {
          var k := j - |before.events|;
          assert after.events[|before.events| + k]
              == GateRun(units[k], before.Head(units[k]), Report(input, k) == GatePassed, true);
        }
      }
    }
  }

  lemma GatesAreTested(store: Store, now: Store, after: Store, input: StageInput, units: seq<Repository>)
    requires input.TestInput? && GatesRan(now, after, input, units)
    requires Underway(store, now, Testing) && now.events == store.events
    ensures Tested(store, Apply(after, Restore), input, units)
  {
    forall id ensures FixRequested(id) in after.events <==> FixRequested(id) in store.events {
      GatesKeepRequests(now, after, input, units, id);
    }
  }

  lemma TestingBegins(limits: Limits, store: Store)
    requires StoreOk(limits, store)
    ensures StageBegun(limits, store, [Restore, StartAttempt(Testing)], Testing)
    ensures ApplyAll(store, [Restore, StartAttempt(Testing)]).dirty == {}
    ensures ApplyAll(store, [Restore, StartAttempt(Testing)]).events == store.events
  {
    StartKeepsOrder(Apply(store, Restore), Testing);
    Two(limits, store, Restore, StartAttempt(Testing));
  }

  /** From the first restore to the second. */
  lemma TestingRunsThrough(limits: Limits, store: Store, input: StageInput, units: seq<Repository>)
    requires StoreOk(limits, store) && input.TestInput? && DistinctUnits(units)
    requires forall unit :: unit in units ==> unit in store.branches && |store.branches[unit]| > 0
    ensures var effects := [Restore, StartAttempt(Testing)] + GateEffects(input, units) + [Restore];
      AllAllowed(limits, store, effects) && Tested(store, ApplyAll(store, effects), input, units)
  {
    hide ApplyAll, AllAllowed, GateEffects;
    var begun, gates := [Restore, StartAttempt(Testing)], GateEffects(input, units);
    TestingBegins(limits, store);
    var now := ApplyAll(store, begun);
    GatesAllowed(limits, now, input, units);
    Join(limits, store, begun, gates);
    GatesAreTested(store, now, ApplyAll(store, begun + gates), input, units);
    Extend(limits, store, begun + gates, Restore);
  }

  lemma PassIsAllowed(limits: Limits, store: Store, now: Store, input: StageInput)
    requires input.TestInput? && store.Prepared(limits.units) && Tested(store, now, input, limits.units)
    requires AllGatesPassed(input, limits.units)
    ensures Allowed(limits, now, SaveQuality(HeadsOf(store, limits.units)))
  {
    HeadsAreHeads(store, limits.units);
    forall k | 0 <= k < |limits.units|
      ensures PassedOn(now, now.events[|store.events| + k], limits.units[k],
                       HeadsOf(store, limits.units)[limits.units[k]])
    {
      assert now.events[|store.events| + k]
          == GateRun(limits.units[k], store.Head(limits.units[k]), Report(input, k) == GatePassed, true);
    }
  }

  /** Whatever the gates reported, the effects that follow obey the rules. */
  lemma TestingEndingAllowed(limits: Limits, task: Tasks.Task, store: Store, now: Store, input: StageInput)
    requires StoreOk(limits, store) && input.TestInput? && Tested(store, now, input, UnitsRun(input, limits.units))
    ensures AllAllowed(limits, now, TestingEnding(limits, task, input, HeadsOf(store, limits.units),
                                                  NextAttempt(store.AttemptsOf(Testing))).effects)
  {
    hide ApplyAll, AllAllowed, QualityOk;
    var attempt, heads := NextAttempt(store.AttemptsOf(Testing)), HeadsOf(store, limits.units);
    Completes(limits, now, Testing, attempt);
    RequestIsNew(store, QualityRequest(attempt));
    HeadsLieInBranches(store, limits.units);
    RequestAllowed(limits, now, QualityRequest(attempt), heads);
    if GatesStopAt(input, limits.units, 0) >= |limits.units| && AllGatesPassed(input, limits.units) {
      PassIsAllowed(limits, store, now, input);
      Two(limits, now, SaveQuality(heads), CompleteAttempt(Testing, attempt));
    }
  }

  lemma TestingAllowed(limits: Limits, task: Tasks.Task, store: Store, input: StageInput)
    requires StoreOk(limits, store) && DistinctUnits(limits.units) && input.TestInput?
    ensures AllAllowed(limits, store, TestingPlan(limits, task, store, input).effects)
  {
    hide ApplyAll, AllAllowed, TestingEnding, GateEffects;
    NothingAllowed(limits, store);
    if TestingRuns(limits, store, input) {
      var effects := TestingEffects(limits, input);
      TestingRunsThrough(limits, store, input, UnitsRun(input, limits.units));
      var now := ApplyAll(store, effects);
      TestingEndingAllowed(limits, task, store, now, input);
      Join(limits, store, effects, TestingEnding(limits, task, input, HeadsOf(store, limits.units),
                                                 NextAttempt(store.AttemptsOf(Testing))).effects);
    }
  }

  // ------------------------------------------------------------------ review, analysis, setup

  /** Whatever the reviewer said, the effects that follow obey the rules. */
  lemma ReviewEndingAllowed(limits: Limits, task: Tasks.Task, store: Store, input: StageInput, heads: Heads,
                            attempt: nat)
    requires input.ReviewInput? && Current(store, Reviewing, attempt)
    requires store.checkpoints.qualityPassed == Some(heads) && OnBranches(store, heads)
    requires FixRequested(ReviewRequest(attempt)) !in store.events
    ensures AllAllowed(limits, store, ReviewEnding(limits, task, input, heads, attempt).effects)
  {
    hide ApplyAll, AllAllowed;
    Completes(limits, store, Reviewing, attempt);
    Two(limits, store, SaveReview(heads), CompleteAttempt(Reviewing, attempt));
    RequestAllowed(limits, store, ReviewRequest(attempt), heads);
  }

  lemma ReviewAllowed(limits: Limits, task: Tasks.Task, store: Store, input: StageInput)
    requires StoreOk(limits, store) && input.ReviewInput?
    ensures AllAllowed(limits, store, ReviewPlan(limits, task, store, input).effects)
  {
    hide ApplyAll, AllAllowed, ReviewEnding;
    NothingAllowed(limits, store);
    if ReviewRuns(limits, store, input) {
      var begun, heads := ReaderEffects(limits.units, Reviewing, input.wrote), HeadsOf(store, limits.units);
      var attempt := NextAttempt(store.AttemptsOf(Reviewing));
      ReaderBegins(limits, store, Reviewing, input.wrote);
      RequestIsNew(store, ReviewRequest(attempt));
      HeadsLieInBranches(store, limits.units);
      ReviewEndingAllowed(limits, task, ApplyAll(store, begun), input, heads, attempt);
      Join(limits, store, begun, ReviewEnding(limits, task, input, heads, attempt).effects);
    }
  }

  lemma AnalysisEndingAllowed(limits: Limits, store: Store, input: StageInput, attempt: nat)
    requires input.AnalysisInput? && Current(store, Analyzing, attempt)
    ensures AllAllowed(limits, store, AnalysisEnding(input, attempt).effects)
  {
    hide ApplyAll, AllAllowed;
    Completes(limits, store, Analyzing, attempt);
    Two(limits, store, SaveAnalysis(input.digest), CompleteAttempt(Analyzing, attempt));
  }

  lemma AnalysisAllowed(limits: Limits, store: Store, input: StageInput)
    requires StoreOk(limits, store) && input.AnalysisInput?
    ensures AllAllowed(limits, store, AnalysisPlan(limits, store, input).effects)
  {
    hide ApplyAll, AllAllowed, AnalysisEnding;
    NothingAllowed(limits, store);
    if AnalysisRuns(store, input) {
      var begun := ReaderEffects(limits.units, Analyzing, input.wrote);
      var attempt := NextAttempt(store.AttemptsOf(Analyzing));
      ReaderBegins(limits, store, Analyzing, input.wrote);
      AnalysisEndingAllowed(limits, ApplyAll(store, begun), input, attempt);
      Join(limits, store, begun, AnalysisEnding(input, attempt).effects);
    }
  }

  lemma SetupEndingAllowed(limits: Limits, store: Store, input: StageInput, heads: Heads, attempt: nat)
    requires input.ReadyInput? && Current(store, Ready, attempt)
    ensures AllAllowed(limits, store, SetupEnding(input, heads, attempt).effects)
  {
    hide ApplyAll, AllAllowed;
    Completes(limits, store, Ready, attempt);
    Three(limits, store, Restore, SaveSetup(heads), CompleteAttempt(Ready, attempt));
  }

  lemma SetupAllowed(limits: Limits, store: Store, input: StageInput)
    requires StoreOk(limits, store) && input.ReadyInput?
    ensures AllAllowed(limits, store, ReadyPlan(limits, store, input).effects)
  {
    hide ApplyAll, AllAllowed, SetupEnding;
    NothingAllowed(limits, store);
    if SetupRuns(limits, store, input) {
      var begun, heads := SetupEffects(limits.units, input), HeadsOf(store, limits.units);
      var attempt := NextAttempt(store.AttemptsOf(Ready));
      AttemptBegins(limits, store, Ready, RunSetup(Within(limits.units, input.touched)));
      SetupEndingAllowed(limits, ApplyAll(store, begun), input, heads, attempt);
      Join(limits, store, begun, SetupEnding(input, heads, attempt).effects);
    }
  }

  // ------------------------------------------------------------------ delivery and observation

  /** Deliveries so far: allowed, of an approved vector, under the attempt that is still current. */
  ghost predicate DeliveredSoFar(limits: Limits, store: Store, effects: seq<Effect>, heads: Heads, attempt: nat) {
    && AllAllowed(limits, store, effects)
    && Approved(ApplyAll(store, effects).events, limits.units, heads)
    && Current(ApplyAll(store, effects), PrCreated, attempt)
  }

  lemma DeliveredNext(limits: Limits, store: Store, effects: seq<Effect>, heads: Heads, attempt: nat, effect: Effect)
    requires DeliveredSoFar(limits, store, effects, heads, attempt)
    requires effect.RecordUnit? || (effect.Push? && effect.heads == heads)
    ensures DeliveredSoFar(limits, store, effects + [effect], heads, attempt)
  {
    hide ApplyAll, AllAllowed;
    var now := ApplyAll(store, effects);
    Extend(limits, store, effects, effect);
    ApprovedGrows(now.events, Apply(now, effect).events, limits.units, heads);
  }

  predicate DeliverySteps(effects: seq<Effect>, heads: Heads) {
    forall i :: 0 <= i < |effects| ==> effects[i].RecordUnit? || (effects[i].Push? && effects[i].heads == heads)
  }

  lemma {:induction false} DeliveriesAllowed(limits: Limits, store: Store, begun: seq<Effect>, more: seq<Effect>,
                                             heads: Heads, attempt: nat)
    requires DeliveredSoFar(limits, store, begun, heads, attempt) && DeliverySteps(more, heads)
    ensures DeliveredSoFar(limits, store, begun + more, heads, attempt)
  {
    hide ApplyAll, AllAllowed, DeliveredSoFar;
    if |more| == 0 {
      assert begun + more == begun;
    } else {
      var shorter, last := more[..|more| - 1], more[|more| - 1];
      DeliveriesAllowed(limits, store, begun, shorter, heads, attempt);
      DeliveredNext(limits, store, begun + shorter, heads, attempt, last);
      assert begun + more == begun + shorter + [last];
    }
  }

  lemma {:induction false} FullDeliveriesAreSteps(store: Store, heads: Heads, units: seq<Repository>, numbers: seq<nat>,
                                                  full: nat)
    requires full <= |units| && forall i :: 0 <= i < |units| ==> units[i] in store.rows && units[i] in heads
    ensures DeliverySteps(FullDeliveries(store, heads, units, numbers, full), heads)
  {
    if full > 0 {
      FullDeliveriesAreSteps(store, heads, units, numbers, full - 1);
    }
  }

  lemma DeliveryEffectsAreSteps(limits: Limits, store: Store, heads: Heads, input: StageInput)
    requires input.DeliveryInput?
    requires forall i :: 0 <= i < |limits.units| ==> limits.units[i] in store.rows && limits.units[i] in heads
    ensures DeliverySteps(DeliveryEffects(limits, store, heads, input), heads)
  {
    FullDeliveriesAreSteps(store, heads, limits.units, input.numbers, FullUnits(limits, input));
  }

  /** A delivery pushes only a vector that was verified and then approved before the run began. */
  lemma DeliveryIsApproved(limits: Limits, store: Store, input: StageInput)
    requires StoreOk(limits, store) && input.DeliveryInput? && DeliveryRuns(limits, store, input)
    ensures Approved(store.events, limits.units, HeadsOf(store, limits.units))
  {
    CurrentReviewIsApproved(store, store.events, limits.units, HeadsOf(store, limits.units));
  }

  lemma DeliveryBegins(limits: Limits, store: Store, heads: Heads)
    requires NumberingOk(store) && Approved(store.events, limits.units, heads)
    ensures DeliveredSoFar(limits, store, [StartAttempt(PrCreated)], heads, NextAttempt(store.AttemptsOf(PrCreated)))
  {
    StartKeepsOrder(store, PrCreated);
    One(limits, store, StartAttempt(PrCreated));
  }

  lemma DeliveryAllowed(limits: Limits, store: Store, input: StageInput)
    requires StoreOk(limits, store) && input.DeliveryInput?
    ensures AllAllowed(limits, store, DeliveryPlan(limits, store, input).effects)
  {
    hide ApplyAll, AllAllowed, DeliveryEffects, BranchesOk, QualityOk, FixesOk;
    StoreIsPrepared(limits, store);
    NothingAllowed(limits, store);
    if DeliveryRuns(limits, store, input) {
      var heads, attempt := HeadsOf(store, limits.units), NextAttempt(store.AttemptsOf(PrCreated));
      var begun, steps := [StartAttempt(PrCreated)], DeliveryEffects(limits, store, heads, input);
      DeliveryIsApproved(limits, store, input);
      DeliveryBegins(limits, store, heads);
      DeliveryEffectsAreSteps(limits, store, heads, input);
      DeliveriesAllowed(limits, store, begun, steps, heads, attempt);
      Completes(limits, ApplyAll(store, begun + steps), PrCreated, attempt);
      NothingAllowed(limits, ApplyAll(store, begun + steps));
      Join(limits, store, begun + steps, DeliveryConclusion(input, attempt).effects);
    }
  }

  predicate Records(effects: seq<Effect>) {
    forall i :: 0 <= i < |effects| ==> effects[i].RecordUnit?
  }

  lemma {:induction false} RecordsAllowed(limits: Limits, store: Store, effects: seq<Effect>)
    requires Records(effects)
    ensures AllAllowed(limits, store, effects)
    ensures ApplyAll(store, effects).attempts == store.attempts
  {
    if |effects| > 0 {
      RecordsAllowed(limits, store, effects[..|effects| - 1]);
    }
  }

  lemma ConclusionAllowed(limits: Limits, store: Store, stage: TaskState)
    requires NumberingOk(store)
    ensures AllAllowed(limits, store,
                       [StartAttempt(stage), CompleteAttempt(stage, NextAttempt(store.AttemptsOf(stage)))])
  {
    StartKeepsOrder(store, stage);
    Two(limits, store, StartAttempt(stage), CompleteAttempt(stage, NextAttempt(store.AttemptsOf(stage))));
  }

  lemma ObservationAllowed(limits: Limits, task: Tasks.Task, store: Store, input: StageInput)
    requires StoreOk(limits, store) && input.ObservationInput?
    ensures AllAllowed(limits, store, ObservationPlan(limits, task, store, input).effects)
  {
    hide ApplyAll, AllAllowed, BranchesOk, QualityOk, FixesOk, PassEnding;
    StoreIsPrepared(limits, store);
    NothingAllowed(limits, store);
    if input.matches {
      var records := RecordEffects(limits, store, input.turns, Observation.StopsAt(input.turns, 0, |limits.units|));
      RecordsAllowed(limits, store, records);
      ConclusionAllowed(limits, ApplyAll(store, records), task.state);
      NothingAllowed(limits, ApplyAll(store, records));
      Join(limits, store, records, ConclusionEffects(limits, task, store, input));
    }
  }

  // ------------------------------------------------------------------ every handler

  /** Whatever state a task is in and whatever its handler meets, each effect of the run obeys the rules. */
  lemma StagePlanAllowed(limits: Limits, task: Tasks.Task, store: Store, input: StageInput)
    requires StoreOk(limits, store) && DistinctUnits(limits.units)
    ensures AllAllowed(limits, store, StagePlan(limits, task, store, input).effects)
  {
    hide AllAllowed, AnalysisPlan, ReadyPlan, ImplementationPlan, TestingPlan, FixingPlan, ReviewPlan, DeliveryPlan;
    hide ObservationPlan;
    NothingAllowed(limits, store);
    match input {
      case AnalysisInput(_, _, _, _, _, _, _, _) => AnalysisAllowed(limits, store, input);
      case ReadyInput(_, _, _, _, _) => SetupAllowed(limits, store, input);
      case WorkInput(_, _, _, _, _, _, _) =>
        ImplementationAllowed(limits, task, store, input);
        FixingAllowed(limits, store, input);
      case TestInput(_, _) => TestingAllowed(limits, task, store, input);
      case ReviewInput(_, _, _, _, _, _, _) => ReviewAllowed(limits, task, store, input);
      case DeliveryInput(_, _, _, _, _) => DeliveryAllowed(limits, store, input);
      case ObservationInput(_, _, _, _, _) => ObservationAllowed(limits, task, store, input);
    }
  }

  // ------------------------------------------------------------------ what plans do not do

  /** No commit of other people. */
  predicate MovesNothing(effects: seq<Effect>) {
    forall i :: 0 <= i < |effects| ==> !effects[i].ForeignMove?
  }

  lemma {:induction false} CommitsMoveNothing(units: seq<Repository>, changed: set<Repository>, origin: Origin,
                                              next: nat)
    ensures MovesNothing(CommitEffects(units, changed, origin, next))
  {
    if |units| > 0 {
      CommitsMoveNothing(units[..|units| - 1], changed, origin, next);
    }
  }

  lemma WorkMovesNothing(limits: Limits, task: Tasks.Task, store: Store, input: StageInput)
    requires store.Prepared(limits.units) && input.WorkInput?
    ensures MovesNothing(ImplementationPlan(limits, task, store, input).effects)
    ensures MovesNothing(FixingPlan(limits, store, input).effects)
  {
    hide CommitEffects, CommittedHeads;
    CommitsMoveNothing(limits.units, input.changed, ImplementationCommit(task.implementationAttempts + 1),
                       store.nextCommit);
    if store.checkpoints.fixRequest.Some? {
      CommitsMoveNothing(limits.units, input.changed, FixCommit(store.checkpoints.fixRequest.value.id),
                         store.nextCommit);
    }
  }

  lemma DeliveryMovesNothing(limits: Limits, store: Store, input: StageInput)
    requires store.Prepared(limits.units) && input.DeliveryInput?
    ensures MovesNothing(DeliveryPlan(limits, store, input).effects)
  {
    hide DeliveryEffects;
    if DeliveryRuns(limits, store, input) {
      DeliveryEffectsAreSteps(limits, store, HeadsOf(store, limits.units), input);
    }
  }

  lemma OthersMoveNothing(limits: Limits, task: Tasks.Task, store: Store, input: StageInput)
    requires store.Prepared(limits.units)
    ensures input.AnalysisInput? ==> MovesNothing(AnalysisPlan(limits, store, input).effects)
    ensures input.ReadyInput? ==> MovesNothing(ReadyPlan(limits, store, input).effects)
    ensures input.TestInput? ==> MovesNothing(TestingPlan(limits, task, store, input).effects)
    ensures input.ReviewInput? ==> MovesNothing(ReviewPlan(limits, task, store, input).effects)
    ensures input.ObservationInput? ==> MovesNothing(ObservationPlan(limits, task, store, input).effects)
  {
    if input.TestInput? {
      assert MovesNothing(GateEffects(input, UnitsRun(input, limits.units)));
    }
  }

  lemma PlansMoveNothing(limits: Limits, task: Tasks.Task, store: Store, input: StageInput)
    requires store.Prepared(limits.units)
    ensures MovesNothing(StagePlan(limits, task, store, input).effects)
  {
    hide AnalysisPlan, ReadyPlan, ImplementationPlan, TestingPlan, FixingPlan, ObservationPlan, ReviewPlan;
    hide DeliveryPlan;
    OthersMoveNothing(limits, task, store, input);
    if input.WorkInput? {
      WorkMovesNothing(limits, task, store, input);
    }
    if input.DeliveryInput? {
      DeliveryMovesNothing(limits, store, input);
    }
  }

  // ------------------------------------------------------------------ approvals and pushes

  /** No approval and no push. */
  predicate Modest(effects: seq<Effect>) {
    forall i :: 0 <= i < |effects| ==> !effects[i].SaveReview? && !effects[i].Push?
  }

  lemma {:induction false} CommitsAreModest(units: seq<Repository>, changed: set<Repository>, origin: Origin, next: nat)
    ensures Modest(CommitEffects(units, changed, origin, next))
  {
    if |units| > 0 {
      CommitsAreModest(units[..|units| - 1], changed, origin, next);
    }
  }

  lemma WorkIsModest(limits: Limits, task: Tasks.Task, store: Store, input: StageInput)
    requires store.Prepared(limits.units) && input.WorkInput?
    ensures Modest(ImplementationPlan(limits, task, store, input).effects)
    ensures Modest(FixingPlan(limits, store, input).effects)
  {
    hide CommitEffects, CommittedHeads;
    CommitsAreModest(limits.units, input.changed, ImplementationCommit(task.implementationAttempts + 1),
                     store.nextCommit);
    if store.checkpoints.fixRequest.Some? {
      CommitsAreModest(limits.units, input.changed, FixCommit(store.checkpoints.fixRequest.value.id), store.nextCommit);
    }
  }

  lemma TestingIsModest(limits: Limits, task: Tasks.Task, store: Store, input: StageInput)
    requires store.Prepared(limits.units) && input.TestInput?
    ensures Modest(TestingPlan(limits, task, store, input).effects)
  {
    assert Modest(GateEffects(input, UnitsRun(input, limits.units)));
  }

  lemma OthersAreModest(limits: Limits, task: Tasks.Task, store: Store, input: StageInput)
    requires store.Prepared(limits.units)
    ensures input.AnalysisInput? ==> Modest(AnalysisPlan(limits, store, input).effects)
    ensures input.ReadyInput? ==> Modest(ReadyPlan(limits, store, input).effects)
    ensures input.ObservationInput? ==> Modest(ObservationPlan(limits, task, store, input).effects)
  {
  }

  /** Only reviews approve, and only deliveries push. */
  lemma OnlyReviewsAndDeliveries(limits: Limits, task: Tasks.Task, store: Store, input: StageInput)
    requires store.Prepared(limits.units)
    requires !(task.state == Reviewing && input.ReviewInput?) && !(task.state == PrCreated && input.DeliveryInput?)
    ensures Modest(StagePlan(limits, task, store, input).effects)
  {
    hide AnalysisPlan, ReadyPlan, ImplementationPlan, TestingPlan, FixingPlan, ObservationPlan, ReviewPlan;
    hide DeliveryPlan;
    OthersAreModest(limits, task, store, input);
    if input.WorkInput? {
      WorkIsModest(limits, task, store, input);
    }
    if input.TestInput? {
      TestingIsModest(limits, task, store, input);
    }
  }

  lemma ReviewPushesNothing(limits: Limits, task: Tasks.Task, store: Store, input: StageInput)
    requires store.Prepared(limits.units) && input.ReviewInput?
    ensures forall i :: 0 <= i < |ReviewPlan(limits, task, store, input).effects|
              ==> !ReviewPlan(limits, task, store, input).effects[i].Push?
  {
  }

  lemma DeliveryPushesHeads(limits: Limits, store: Store, input: StageInput)
    requires StoreOk(limits, store) && input.DeliveryInput?
    ensures PushesSettled(limits, store.events, DeliveryPlan(limits, store, input).effects)
  {
    hide Approved, DeliveryEffects, QualityOk, FixesOk, BranchesOk;
    StoreIsPrepared(limits, store);
    if DeliveryRuns(limits, store, input) {
      var heads := HeadsOf(store, limits.units);
      DeliveryIsApproved(limits, store, input);
      DeliveryEffectsAreSteps(limits, store, heads, input);
    }
  }

  /** Every push of a plan is of a vector that was verified and approved when the run began. */
  lemma PlansPushSettled(limits: Limits, task: Tasks.Task, store: Store, input: StageInput)
    requires StoreOk(limits, store)
    ensures PushesSettled(limits, store.events, StagePlan(limits, task, store, input).effects)
  {
    hide AnalysisPlan, ReadyPlan, ImplementationPlan, TestingPlan, FixingPlan, ObservationPlan, ReviewPlan;
    hide DeliveryPlan;
    hide Approved;
    if task.state == Reviewing && input.ReviewInput? {
      ReviewPushesNothing(limits, task, store, input);
    } else if task.state == PrCreated && input.DeliveryInput? {
      DeliveryPushesHeads(limits, store, input);
    } else {
      OnlyReviewsAndDeliveries(limits, task, store, input);
    }
  }

  // ------------------------------------------------------------------ crashes and other people's commits

  lemma {:induction false} OwnOfPrefix(woven: seq<Effect>, n: nat)
    requires n <= |woven|
    ensures Own(woven[..n]) <= Own(woven)
  {
    if n == |woven| {
      assert woven[..n] == woven;
    } else {
      var shorter := woven[..|woven| - 1];
      assert shorter[..n] == woven[..n];
      OwnOfPrefix(shorter, n);
    }
  }

  lemma {:induction false} PrefixAllowed(limits: Limits, store: Store, effects: seq<Effect>, n: nat)
    requires AllAllowed(limits, store, effects) && n <= |effects|
    ensures AllAllowed(limits, store, effects[..n])
  {
    if n < |effects| {
      PrefixAllowed(limits, store, effects[..|effects| - 1], n);
      assert effects[..|effects| - 1][..n] == effects[..n];
    } else {
      assert effects[..n] == effects;
    }
  }

  /**
   A run that has got anywhere in its plan, with any number of other people's commits anywhere in between, has left a
   store in order; so a crash there is harmless.
   */
  lemma StageCrashSafe(limits: Limits, task: Tasks.Task, store: Store, input: StageInput, woven: seq<Effect>)
    requires StoreOk(limits, store) && DistinctUnits(limits.units)
    requires Own(woven) <= StagePlan(limits, task, store, input).effects
    ensures WovenSoFar(limits, store, woven) && StoreOk(limits, ApplyAll(store, woven))
  {
    hide StagePlan, StoreOk, AllAllowed, ApplyAll, Follows, Approved;
    StoreIsPrepared(limits, store);
    var effects := StagePlan(limits, task, store, input).effects;
    StagePlanAllowed(limits, task, store, input);
    PlansPushSettled(limits, task, store, input);
    PrefixAllowed(limits, store, effects, |Own(woven)|);
    assert effects[..|Own(woven)|] == Own(woven);
    WovenAllowed(limits, store, woven);
  }
}
