/**
 The rules for each durable effect of the handlers and what those rules keep true of the store, so that a crash between
 any two allowed effects is harmless.
 */
module ExecutionSafety {
  import opened Wrappers
  import opened Domain
  import opened Commits
  import opened ExecutionStore
  import opened StagePlans

  // ------------------------------------------------------------------ what is kept

  /** A commit whose identity has been given out. */
  predicate Known(commit: Commit, next: nat, foreign: nat) {
    commit.id < if commit.origin.ForeignCommit? then foreign else next
  }

  /** A branch starts at its base, never goes back to it, and gains only new commits. */
  predicate BranchOk(branch: seq<Commit>, next: nat, foreign: nat) {
    && |branch| > 0 && branch[0].origin == BaseCommit
    && (forall i :: 0 < i < |branch| ==> branch[i].origin != BaseCommit)
    && (forall i, j :: 0 <= i < j < |branch| ==> branch[i] != branch[j])
    && (forall i :: 0 <= i < |branch| ==> Known(branch[i], next, foreign))
  }

  /** At most one implementation commit, and at most one commit for each fix request. */
  predicate OneCommitPerRequest(branch: seq<Commit>) {
    && (forall i, j :: 0 <= i < j < |branch| ==>
          !(branch[i].origin.ImplementationCommit? && branch[j].origin.ImplementationCommit?))
    && (forall i, j :: 0 <= i < j < |branch| ==>
          !(branch[i].origin.FixCommit? && branch[i].origin == branch[j].origin))
  }

  ghost predicate BranchesOk(limits: Limits, store: Store) {
    && store.Prepared(limits.units)
    && (forall unit :: unit in store.branches ==>
          && BranchOk(store.branches[unit], store.nextCommit, store.nextForeign)
          && OneCommitPerRequest(store.branches[unit]))
    && (store.checkpoints.implementation.Some? ==>
          var recorded := store.checkpoints.implementation.value;
          recorded.attempt <= limits.maxImplementationAttempts && InBranches(store, limits.units, recorded.commits))
  }

  /** Every unit has a commit in the vector, and it lies in the unit's branch. */
  predicate InBranches(store: Store, units: seq<Repository>, heads: Heads) {
    forall i :: 0 <= i < |units| ==>
      && units[i] in heads && units[i] in store.branches && heads[units[i]] in store.branches[units[i]]
  }

  ghost predicate NumberingOk(store: Store) {
    forall stage :: stage in store.attempts ==> AttemptsInOrder(store.attempts[stage])
  }

  function RequestStage(id: RequestId): TaskState {
    match id case QualityRequest(_) => Testing case ReviewRequest(_) => Reviewing
  }

  predicate AttemptCompleted(store: Store, id: RequestId) {
    var attempts := store.AttemptsOf(RequestStage(id));
    id.attempt in attempts && attempts[id.attempt]
  }

  /** A fix request is new: never requested before, and never recorded as applied. */
  predicate FreshRequests(events: seq<Event>) {
    forall i, j :: 0 <= i < j < |events| && events[j].FixRequested? ==>
      events[i] != FixRequested(events[j].id) && events[i] != FixRecorded(events[j].id)
  }

  /** The commits of a vector lie on the branches it names. */
  predicate OnBranches(store: Store, heads: Heads) {
    forall unit :: unit in heads ==> unit in store.branches && heads[unit] in store.branches[unit]
  }

  /** Position `i` of a branch comes after `commit`. */
  predicate Behind(branch: seq<Commit>, commit: Commit, i: nat) {
    exists j :: 0 <= j < i && j < |branch| && branch[j] == commit
  }

  /** No commit of the branch belongs to the request. */
  predicate Unfixed(branch: seq<Commit>, id: RequestId) {
    forall i :: 0 <= i < |branch| ==> branch[i].origin != FixCommit(id)
  }

  ghost predicate FixesOk(store: Store) {
    && FreshRequests(store.events)
    && (forall i :: 0 <= i < |store.events| && store.events[i].FixRequested?
          ==> AttemptCompleted(store, store.events[i].id))
    && (forall i :: 0 <= i < |store.events| && store.events[i].FixRecorded?
          ==> FixRequested(store.events[i].id) in store.events)
    && (store.checkpoints.fixRequest.Some? ==>
          var request := store.checkpoints.fixRequest.value;
          && FixRequested(request.id) in store.events
          && OnBranches(store, request.heads)
          && forall unit, i :: unit in store.branches && 0 <= i < |store.branches[unit]|
                               && store.branches[unit][i].origin == FixCommit(request.id)
               ==> unit in request.heads && Behind(store.branches[unit], request.heads[unit], i))
    && (forall unit, i :: unit in store.branches && 0 <= i < |store.branches[unit]|
                          && store.branches[unit][i].origin.FixCommit?
          ==> FixRequested(store.branches[unit][i].origin.request) in store.events)
  }

  /** From event `i` on, every unit's gates passed, in order, on its commit of `heads` and on a clean worktree. */
  predicate VerifiedAt(events: seq<Event>, i: nat, units: seq<Repository>, heads: Heads) {
    && i + |units| <= |events|
    && forall k :: 0 <= k < |units|
         ==> units[k] in heads && events[i + k] == GateRun(units[k], heads[units[k]], true, true)
  }

  ghost predicate Verified(events: seq<Event>, units: seq<Repository>, heads: Heads) {
    exists i: nat :: VerifiedAt(events, i, units, heads)
  }

  /** The gates passed on exactly `heads`, and a later review approved exactly `heads`. */
  ghost predicate Approved(events: seq<Event>, units: seq<Repository>, heads: Heads) {
    exists j: nat :: j < |events| && events[j] == ReviewRecorded(heads) && Verified(events[..j], units, heads)
  }

  /** Every pushed vector was verified and then approved before it was pushed. */
  ghost predicate PushesApproved(events: seq<Event>, units: seq<Repository>) {
    forall k :: 0 <= k < |events| && events[k].Pushed? ==> Approved(events[..k], units, events[k].heads)
  }

  /** The unit's branch has gone on from `commit`. */
  predicate Stale(store: Store, unit: Repository, commit: Commit) {
    unit in store.branches && |store.branches[unit]| > 0 && commit in store.branches[unit]
    && store.Head(unit) != commit
  }

  /** The unit's gates passed, on a clean worktree, on `commit` or on a branch that has gone on from it since. */
  predicate PassedOn(store: Store, event: Event, unit: Repository, commit: Commit) {
    event.GateRun? && event.repository == unit && event.passed && event.clean
    && (event.commit == commit || Stale(store, unit, commit))
  }

  /** From event `i` on, every unit's gates passed, in order, on the head that `heads` names unless that is stale. */
  predicate PassedAt(store: Store, events: seq<Event>, i: nat, units: seq<Repository>, heads: Heads) {
    && i + |units| <= |events|
    && forall k :: 0 <= k < |units| ==> units[k] in heads && PassedOn(store, events[i + k], units[k], heads[units[k]])
  }

  ghost predicate Passed(store: Store, events: seq<Event>, units: seq<Repository>, heads: Heads) {
    exists i: nat :: PassedAt(store, events, i, units, heads)
  }

  /** Such a pass, and a later review that approved the same vector. */
  ghost predicate Reviewed(store: Store, events: seq<Event>, units: seq<Repository>, heads: Heads) {
    exists j: nat :: j < |events| && events[j] == ReviewRecorded(heads) && Passed(store, events[..j], units, heads)
  }

  /** What is recorded as passed or approved was, except for units whose branch has gone on since the run looked. */
  ghost predicate QualityOk(limits: Limits, store: Store) {
    && (store.checkpoints.qualityPassed.Some? ==>
          Passed(store, store.events, limits.units, store.checkpoints.qualityPassed.value))
    && (store.checkpoints.reviewApproved.Some? ==>
          Reviewed(store, store.events, limits.units, store.checkpoints.reviewApproved.value))
    && PushesApproved(store.events, limits.units)
  }

  /** Write-enabled agents and quality gates only ever ran on worktrees without uncommitted changes. */
  predicate CleanRuns(events: seq<Event>) {
    forall i :: 0 <= i < |events| ==>
      && (events[i].AgentStarted? ==> events[i].clean)
      && (events[i].GateRun? ==> events[i].clean)
  }

  ghost predicate StoreOk(limits: Limits, store: Store) {
    && BranchesOk(limits, store)
    && NumberingOk(store)
    && FixesOk(store)
    && QualityOk(limits, store)
    && CleanRuns(store.events)
  }

  /** A task whose branches stand at their bases and for which nothing has been recorded. */
  predicate FreshStore(limits: Limits, store: Store) {
    && store.Prepared(limits.units)
    && (forall unit :: unit in store.branches ==>
          && |store.branches[unit]| == 1 && store.branches[unit][0].origin == BaseCommit
          && store.branches[unit][0].id < store.nextCommit)
    && store.checkpoints == Checkpoints(None, None, None, None, None, None, None, None)
    && store.attempts == map[] && store.events == []
  }

  lemma FreshIsOk(limits: Limits, store: Store)
    requires FreshStore(limits, store)
    ensures StoreOk(limits, store)
  {
  }

  // ------------------------------------------------------------------ the rules

  ghost predicate Allowed(limits: Limits, store: Store, effect: Effect) {
    match effect
    case Restore => true
    case StartAttempt(_) => true
    case CompleteAttempt(stage, attempt) =>
      attempt in store.AttemptsOf(stage) && attempt == Latest(store.AttemptsOf(stage))
    case RunSetup(_) => true
    case RunAgent(writes, _) => writes ==> store.dirty == {}
    case ForeignMove(_) => true
    case RunGate(unit, _) => unit !in store.dirty
    case MakeCommit(unit, commit) =>
      && unit in store.branches && |store.branches[unit]| > 0 && store.nextCommit <= commit.id
      && (match commit.origin
          case ImplementationCommit(_) =>
            forall i :: 0 <= i < |store.branches[unit]| ==> !store.branches[unit][i].origin.ImplementationCommit?
          case FixCommit(id) =>
            && store.checkpoints.fixRequest.Some? && store.checkpoints.fixRequest.value.id == id
            && unit in store.checkpoints.fixRequest.value.heads
            && store.checkpoints.fixRequest.value.heads[unit] in store.branches[unit]
            && Unfixed(store.branches[unit], id)
          case _ => false)
    case SaveAnalysis(_) => true
    case SaveSetup(_) => true
    case SaveImplementation(implementation) =>
      && implementation.attempt <= limits.maxImplementationAttempts
      && InBranches(store, limits.units, implementation.commits)
    case SaveRejection(_) => true
    case SaveQuality(heads) =>
      && |limits.units| <= |store.events|
      && PassedAt(store, store.events, |store.events| - |limits.units|, limits.units, heads)
    case SaveFixRequest(request) =>
      && FixRequested(request.id) !in store.events && AttemptCompleted(store, request.id)
      && OnBranches(store, request.heads)
    case SaveFixApplied(id) => store.checkpoints.fixRequest.Some? && store.checkpoints.fixRequest.value.id == id
    case SaveReview(heads) => store.checkpoints.qualityPassed == Some(heads)
    case Push(_, heads) => Approved(store.events, limits.units, heads)
    case RecordUnit(_, _) => true
  }

  // ------------------------------------------------------------------ each rule keeps each invariant

  lemma CommitGrowsBranch(branch: seq<Commit>, commit: Commit, next: nat, foreign: nat, later: nat, laterForeign: nat)
    requires BranchOk(branch, next, foreign) && OneCommitPerRequest(branch) && commit.origin != BaseCommit
    requires next <= later && foreign <= laterForeign
    requires !Known(commit, next, foreign) && Known(commit, later, laterForeign)
    requires commit.origin.ImplementationCommit? ==>
               forall i :: 0 <= i < |branch| ==> !branch[i].origin.ImplementationCommit?
    requires commit.origin.FixCommit? ==> Unfixed(branch, commit.origin.request)
    ensures BranchOk(branch + [commit], later, laterForeign) && OneCommitPerRequest(branch + [commit])
  {
  }

  /** No commit of a request exists on a branch whose head is still the one the request named. */
  lemma RequestStillOpen(limits: Limits, store: Store, unit: Repository)
    requires BranchesOk(limits, store) && FixesOk(store) && unit in store.branches && store.checkpoints.fixRequest.Some?
    requires unit in store.checkpoints.fixRequest.value.heads
    requires store.checkpoints.fixRequest.value.heads[unit] == store.Head(unit)
    ensures Unfixed(store.branches[unit], store.checkpoints.fixRequest.value.id)
  {
    var branch := store.branches[unit];
    var request := store.checkpoints.fixRequest.value;
    assert BranchOk(branch, store.nextCommit, store.nextForeign);
    forall i | 0 <= i < |branch| ensures branch[i].origin != FixCommit(request.id) {
      assert !Behind(branch, store.Head(unit), i);
    }
  }

  /** A branch grows by one commit of its own or of somebody else. */
  predicate Grows(before: Store, after: Store, unit: Repository, commit: Commit) {
    && unit in before.branches && after.branches == before.branches[unit := before.branches[unit] + [commit]]
    && commit.origin != BaseCommit && !Known(commit, before.nextCommit, before.nextForeign)
    && Known(commit, after.nextCommit, after.nextForeign)
    && before.nextCommit <= after.nextCommit && before.nextForeign <= after.nextForeign
    && after.rows == before.rows && after.checkpoints == before.checkpoints && after.attempts == before.attempts
    && after.events == before.events
  }

  lemma GrowthKeepsInBranches(before: Store, after: Store, unit: Repository, commit: Commit,
                              units: seq<Repository>, heads: Heads)
    requires Grows(before, after, unit, commit) && InBranches(before, units, heads)
    ensures InBranches(after, units, heads)
  {
    forall i | 0 <= i < |units| ensures heads[units[i]] in after.branches[units[i]] {
      assert heads[units[i]] in before.branches[units[i]];
    }
  }

  lemma GrowthKeepsBranches(limits: Limits, before: Store, after: Store, unit: Repository, commit: Commit)
    requires BranchesOk(limits, before) && Grows(before, after, unit, commit)
    requires commit.origin.ImplementationCommit? ==>
               forall i :: 0 <= i < |before.branches[unit]| ==> !before.branches[unit][i].origin.ImplementationCommit?
    requires commit.origin.FixCommit? ==> Unfixed(before.branches[unit], commit.origin.request)
    ensures BranchesOk(limits, after)
  {
    forall other | other in after.branches
      ensures BranchOk(after.branches[other], after.nextCommit, after.nextForeign)
      ensures OneCommitPerRequest(after.branches[other])
    {
      assert BranchOk(before.branches[other], before.nextCommit, before.nextForeign);
      if other == unit {
        CommitGrowsBranch(before.branches[unit], commit, before.nextCommit, before.nextForeign, after.nextCommit,
                          after.nextForeign);
      }
    }
    if before.checkpoints.implementation.Some? {
      GrowthKeepsInBranches(before, after, unit, commit, limits.units, before.checkpoints.implementation.value.commits);
    }
  }

  lemma BranchesFrame(limits: Limits, before: Store, after: Store)
    requires BranchesOk(limits, before) && after.Prepared(limits.units)
    requires after.branches == before.branches && after.nextCommit == before.nextCommit
    requires after.nextForeign == before.nextForeign
    requires after.checkpoints.implementation == before.checkpoints.implementation
          || (after.checkpoints.implementation.Some?
              && after.checkpoints.implementation.value.attempt <= limits.maxImplementationAttempts
              && InBranches(after, limits.units, after.checkpoints.implementation.value.commits))
    ensures BranchesOk(limits, after)
  {
  }

  lemma BranchesKept(limits: Limits, store: Store, effect: Effect)
    requires BranchesOk(limits, store) && Allowed(limits, store, effect)
    ensures BranchesOk(limits, Apply(store, effect))
  {
    var after := Apply(store, effect);
    if effect.MakeCommit? {
      var grown := Appended(store, effect.repository, effect.commit);
      GrowthKeepsBranches(limits, store, grown, effect.repository, effect.commit);
      BranchesFrame(limits, grown, after);
    } else if effect.ForeignMove? {
      if effect.repository in store.branches {
        GrowthKeepsBranches(limits, store, after, effect.repository, Commit(store.nextForeign, ForeignCommit));
      }
    } else {
      BranchesFrame(limits, store, after);
    }
  }

  lemma NumberingKept(limits: Limits, store: Store, effect: Effect)
    requires NumberingOk(store) && Allowed(limits, store, effect)
    ensures NumberingOk(Apply(store, effect))
  {
    match effect
    case StartAttempt(stage) =>
      StartKeepsOrder(store, stage);
    case CompleteAttempt(stage, attempt) =>
      var n: nat :| NumberedTo(store.attempts[stage], n);
      NumberedLatest(store.attempts[stage], n);
      assert NumberedTo(store.attempts[stage][attempt := true], n);
    case _ =>
  }

  /** A started attempt is the latest one, is open, and is not completed before. */
  lemma StartKeepsOrder(store: Store, stage: TaskState)
    requires NumberingOk(store)
    ensures var attempt := NextAttempt(store.AttemptsOf(stage));
      var started := Apply(store, StartAttempt(stage));
      && NumberedTo(started.AttemptsOf(stage), attempt) && AttemptsInOrder(started.AttemptsOf(stage))
      && Latest(started.AttemptsOf(stage)) == attempt && attempt in started.AttemptsOf(stage)
      && !started.AttemptsOf(stage)[attempt]
      && !(attempt in store.AttemptsOf(stage) && store.AttemptsOf(stage)[attempt])
      && forall m :: m in store.AttemptsOf(stage) && m != attempt ==>
           m in started.AttemptsOf(stage) && started.AttemptsOf(stage)[m] == store.AttemptsOf(stage)[m]
  {
    var attempts := store.AttemptsOf(stage);
    if stage !in store.attempts {
      assert NumberedTo(attempts, 0);
    }
    var n: nat :| NumberedTo(attempts, n);
    NumberedLatest(attempts, n);
    var attempt := NextAttempt(attempts);
    assert NumberedTo(attempts[attempt := false], attempt);
    NumberedLatest(attempts[attempt := false], attempt);
  }

  lemma LogKeepsFixes(store: Store, event: Event)
    requires FixesOk(store) && !event.FixRequested?
    requires event.FixRecorded? ==> FixRequested(event.id) in store.events
    ensures FixesOk(Logged(store, event))
  {
    var after := Logged(store, event);
    forall i | 0 <= i < |after.events| && after.events[i].FixRecorded?
      ensures FixRequested(after.events[i].id) in after.events
    {
      assert FixRequested(after.events[i].id) in store.events;
    }
  }

  lemma GrowthKeepsBehind(branch: seq<Commit>, commit: Commit, head: Commit, i: nat)
    requires Behind(branch, head, i)
    ensures Behind(branch + [commit], head, i)
  {
    var j :| 0 <= j < i && j < |branch| && branch[j] == head;
    assert (branch + [commit])[j] == head;
  }

  /** The part of the fix invariant that speaks of branches. */
  lemma GrowthKeepsRequested(before: Store, after: Store, unit: Repository, commit: Commit)
    requires FixesOk(before) && Grows(before, after, unit, commit)
    requires commit.origin.FixCommit? ==> FixRequested(commit.origin.request) in before.events
    ensures forall other, i :: other in after.branches && 0 <= i < |after.branches[other]|
                               && after.branches[other][i].origin.FixCommit?
              ==> FixRequested(after.branches[other][i].origin.request) in after.events
  {
    forall other, i | other in after.branches && 0 <= i < |after.branches[other]|
                      && after.branches[other][i].origin.FixCommit?
      ensures FixRequested(after.branches[other][i].origin.request) in after.events
    {
      if other != unit || i < |before.branches[unit]| {
        assert after.branches[other][i] == before.branches[other][i];
      }
    }
  }

  lemma GrowthKeepsRequest(before: Store, after: Store, unit: Repository, commit: Commit, request: FixRequest)
    requires FixesOk(before) && Grows(before, after, unit, commit)
    requires before.checkpoints.fixRequest == Some(request)
    requires commit.origin == FixCommit(request.id) ==>
               unit in request.heads && request.heads[unit] in before.branches[unit]
    ensures OnBranches(after, request.heads)
    ensures forall other, i :: other in after.branches && 0 <= i < |after.branches[other]|
                               && after.branches[other][i].origin == FixCommit(request.id)
              ==> other in request.heads && Behind(after.branches[other], request.heads[other], i)
  {
    forall other | other in request.heads
      ensures other in after.branches && request.heads[other] in after.branches[other]
    {
      assert request.heads[other] in before.branches[other];
    }
    forall other, i | other in after.branches && 0 <= i < |after.branches[other]|
                      && after.branches[other][i].origin == FixCommit(request.id)
      ensures other in request.heads && Behind(after.branches[other], request.heads[other], i)
    {
      if other != unit || i < |before.branches[unit]| {
        assert after.branches[other][i] == before.branches[other][i];
        assert Behind(before.branches[other], request.heads[other], i);
        if other == unit {
          GrowthKeepsBehind(before.branches[unit], commit, request.heads[unit], i);
        }
      } else {
        var j :| 0 <= j < |before.branches[unit]| && before.branches[unit][j] == request.heads[unit];
        assert after.branches[unit][j] == request.heads[unit];
      }
    }
  }

  lemma GrowthKeepsFixes(before: Store, after: Store, unit: Repository, commit: Commit)
    requires FixesOk(before) && Grows(before, after, unit, commit)
    requires commit.origin.FixCommit? ==>
      && before.checkpoints.fixRequest.Some? && before.checkpoints.fixRequest.value.id == commit.origin.request
      && unit in before.checkpoints.fixRequest.value.heads
      && before.checkpoints.fixRequest.value.heads[unit] in before.branches[unit]
    ensures FixesOk(after)
  {
    GrowthKeepsRequested(before, after, unit, commit);
    if before.checkpoints.fixRequest.Some? {
      GrowthKeepsRequest(before, after, unit, commit, before.checkpoints.fixRequest.value);
    }
    forall i | 0 <= i < |after.events| && after.events[i].FixRequested?
      ensures AttemptCompleted(after, after.events[i].id)
    {
      assert AttemptCompleted(before, before.events[i].id);
    }
  }

  lemma StartKeepsFixes(store: Store, stage: TaskState)
    requires FixesOk(store) && NumberingOk(store)
    ensures FixesOk(Apply(store, StartAttempt(stage)))
  {
    var after := Apply(store, StartAttempt(stage));
    StartKeepsOrder(store, stage);
    forall i | 0 <= i < |after.events| && after.events[i].FixRequested?
      ensures AttemptCompleted(after, after.events[i].id)
    {
      assert AttemptCompleted(store, store.events[i].id);
    }
  }

  lemma CompleteKeepsFixes(store: Store, stage: TaskState, attempt: nat)
    requires FixesOk(store)
    ensures FixesOk(Apply(store, CompleteAttempt(stage, attempt)))
  {
    var after := Apply(store, CompleteAttempt(stage, attempt));
    forall i | 0 <= i < |after.events| && after.events[i].FixRequested?
      ensures AttemptCompleted(after, after.events[i].id)
    {
      assert AttemptCompleted(store, store.events[i].id);
    }
  }

  lemma RequestKeepsFixes(limits: Limits, store: Store, request: FixRequest)
    requires FixesOk(store) && Allowed(limits, store, SaveFixRequest(request))
    ensures FixesOk(Apply(store, SaveFixRequest(request)))
  {
    var after := Apply(store, SaveFixRequest(request));
    assert after.events[|store.events|] == FixRequested(request.id);
    forall i | 0 <= i < |after.events| && after.events[i].FixRequested?
      ensures AttemptCompleted(after, after.events[i].id)
    {
      if i < |store.events| {
        assert AttemptCompleted(store, store.events[i].id);
      }
      assert after.AttemptsOf(RequestStage(after.events[i].id)) == store.AttemptsOf(RequestStage(after.events[i].id));
    }
    forall i | 0 <= i < |after.events| && after.events[i].FixRecorded?
      ensures FixRequested(after.events[i].id) in after.events
    {
      assert FixRequested(store.events[i].id) in store.events;
    }
    forall i, j | 0 <= i < j < |after.events| && after.events[j].FixRequested?
      ensures after.events[i] != FixRequested(after.events[j].id) && after.events[i] != FixRecorded(after.events[j].id)
    {
      if j == |store.events| && store.events[i].FixRecorded? {
        assert FixRequested(store.events[i].id) in store.events;
      }
    }
  }

  /** Only the parts of the store that fixes depend on matter. */
  lemma FixesFrame(before: Store, after: Store)
    requires FixesOk(before)
    requires after.events == before.events && after.attempts == before.attempts && after.branches == before.branches
    requires after.checkpoints.fixRequest == before.checkpoints.fixRequest
    ensures FixesOk(after)
  {
    forall i | 0 <= i < |after.events| && after.events[i].FixRequested?
      ensures AttemptCompleted(after, after.events[i].id)
    {
      assert AttemptCompleted(before, before.events[i].id);
    }
  }

  /** The effects that only log, or change nothing a fix depends on. */
  lemma PlainKeepsFixes(limits: Limits, store: Store, effect: Effect)
    requires FixesOk(store) && Allowed(limits, store, effect)
    requires !effect.StartAttempt? && !effect.CompleteAttempt? && !effect.ForeignMove? && !effect.MakeCommit?
    requires !effect.SaveFixRequest?
    ensures FixesOk(Apply(store, effect))
  {
    var after := Apply(store, effect);
    if after.events == store.events {
      FixesFrame(store, after);
    } else {
      var event := after.events[|store.events|];
      assert after.events == store.events + [event];
      LogKeepsFixes(store, event);
      FixesFrame(Logged(store, event), after);
    }
  }

  lemma FixesKept(limits: Limits, store: Store, effect: Effect)
    requires NumberingOk(store) && FixesOk(store) && Allowed(limits, store, effect)
    ensures FixesOk(Apply(store, effect))
  {
    if effect.StartAttempt? {
      StartKeepsFixes(store, effect.stage);
    } else if effect.CompleteAttempt? {
      CompleteKeepsFixes(store, effect.stage, effect.attempt);
    } else if effect.ForeignMove? {
      if effect.repository in store.branches {
        GrowthKeepsFixes(store, Apply(store, effect), effect.repository, Commit(store.nextForeign, ForeignCommit));
      }
    } else if effect.MakeCommit? {
      var grown := Appended(store, effect.repository, effect.commit);
      GrowthKeepsFixes(store, grown, effect.repository, effect.commit);
      FixesFrame(grown, Apply(store, effect));
    } else if effect.SaveFixRequest? {
      RequestKeepsFixes(limits, store, effect.request);
    } else {
      PlainKeepsFixes(limits, store, effect);
    }
  }

  lemma ApprovedGrows(events: seq<Event>, more: seq<Event>, units: seq<Repository>, heads: Heads)
    requires Approved(events, units, heads) && events <= more
    ensures Approved(more, units, heads)
  {
    var j: nat :| j < |events| && events[j] == ReviewRecorded(heads) && Verified(events[..j], units, heads);
    assert more[..j] == events[..j] && more[j] == events[j];
  }

  lemma PushesGrow(events: seq<Event>, event: Event, units: seq<Repository>)
    requires PushesApproved(events, units) && (event.Pushed? ==> Approved(events, units, event.heads))
    ensures PushesApproved(events + [event], units)
  {
    var more := events + [event];
    forall k | 0 <= k < |more| && more[k].Pushed? ensures Approved(more[..k], units, more[k].heads) {
      if k < |events| {
        assert more[..k] == events[..k];
      } else {
        assert more[..k] == events;
      }
    }
  }

  /** Nothing that was stale becomes current again. */
  ghost predicate StaysStale(before: Store, after: Store) {
    forall unit, commit {:trigger Stale(before, unit, commit)} ::
      Stale(before, unit, commit) ==> Stale(after, unit, commit)
  }

  lemma PassedGrows(before: Store, after: Store, events: seq<Event>, more: seq<Event>, units: seq<Repository>,
                    heads: Heads)
    requires Passed(before, events, units, heads) && events <= more && StaysStale(before, after)
    ensures Passed(after, more, units, heads)
  {
    var i: nat :| PassedAt(before, events, i, units, heads);
    assert forall k :: 0 <= k < |units| ==> PassedOn(before, events[i + k], units[k], heads[units[k]]);
    assert PassedAt(after, more, i, units, heads);
  }

  lemma ReviewedGrows(before: Store, after: Store, events: seq<Event>, more: seq<Event>, units: seq<Repository>,
                      heads: Heads)
    requires Reviewed(before, events, units, heads) && events <= more && StaysStale(before, after)
    ensures Reviewed(after, more, units, heads)
  {
    var j: nat :| j < |events| && events[j] == ReviewRecorded(heads) && Passed(before, events[..j], units, heads);
    PassedGrows(before, after, events[..j], events[..j], units, heads);
    assert more[..j] == events[..j] && more[j] == events[j];
  }

  /** A store that has only gone on: more events, none of them an unapproved push, and what was stale stays so. */
  lemma QualityGrows(limits: Limits, before: Store, after: Store)
    requires QualityOk(limits, before) && before.events <= after.events && StaysStale(before, after)
    requires after.checkpoints.qualityPassed == before.checkpoints.qualityPassed
    requires after.checkpoints.reviewApproved == before.checkpoints.reviewApproved
    requires PushesApproved(after.events, limits.units)
    ensures QualityOk(limits, after)
  {
    if before.checkpoints.qualityPassed.Some? {
      PassedGrows(before, after, before.events, after.events, limits.units, before.checkpoints.qualityPassed.value);
    }
    if before.checkpoints.reviewApproved.Some? {
      ReviewedGrows(before, after, before.events, after.events, limits.units, before.checkpoints.reviewApproved.value);
    }
  }

  lemma LogKeepsQuality(limits: Limits, store: Store, event: Event)
    requires QualityOk(limits, store) && (event.Pushed? ==> Approved(store.events, limits.units, event.heads))
    ensures QualityOk(limits, Logged(store, event))
  {
    PushesGrow(store.events, event, limits.units);
    QualityGrows(limits, store, Logged(store, event));
  }

  lemma GrowthStaysStale(before: Store, after: Store, unit: Repository, commit: Commit)
    requires Grows(before, after, unit, commit)
    requires forall other :: other in before.branches ==>
               BranchOk(before.branches[other], before.nextCommit, before.nextForeign)
    ensures StaysStale(before, after)
  {
    forall other, left {:trigger Stale(before, other, left)} | Stale(before, other, left)
      ensures Stale(after, other, left)
    {
      assert BranchOk(before.branches[other], before.nextCommit, before.nextForeign);
      assert Known(left, before.nextCommit, before.nextForeign);
    }
  }

  lemma SaveKeepsQuality(limits: Limits, store: Store, effect: Effect)
    requires QualityOk(limits, store) && Allowed(limits, store, effect) && (effect.SaveQuality? || effect.SaveReview?)
    ensures QualityOk(limits, Apply(store, effect))
  {
    var after := Apply(store, effect);
    var event := if effect.SaveQuality? then QualityRecorded(effect.heads) else ReviewRecorded(effect.heads);
    LogKeepsQuality(limits, store, event);
    assert after.events[..|store.events|] == store.events && StaysStale(store, after);
    if effect.SaveQuality? {
      assert Passed(store, store.events, limits.units, effect.heads);
      PassedGrows(store, after, store.events, after.events, limits.units, effect.heads);
      if after.checkpoints.reviewApproved.Some? {
        ReviewedGrows(store, after, store.events, after.events, limits.units, after.checkpoints.reviewApproved.value);
      }
    } else {
      PassedGrows(store, after, store.events, after.events, limits.units, effect.heads);
      PassedGrows(store, after, store.events, store.events, limits.units, effect.heads);
      assert after.events[|store.events|] == ReviewRecorded(effect.heads);
    }
  }

  lemma QualityKept(limits: Limits, store: Store, effect: Effect)
    requires BranchesOk(limits, store) && QualityOk(limits, store) && Allowed(limits, store, effect)
    ensures QualityOk(limits, Apply(store, effect))
  {
    var after := Apply(store, effect);
    if effect.SaveQuality? || effect.SaveReview? {
      SaveKeepsQuality(limits, store, effect);
    } else if effect.MakeCommit? {
      var grown := Appended(store, effect.repository, effect.commit);
      GrowthStaysStale(store, grown, effect.repository, effect.commit);
      QualityGrows(limits, store, grown);
      QualityGrows(limits, grown, after);
    } else if effect.ForeignMove? {
      if effect.repository in store.branches {
        GrowthStaysStale(store, after, effect.repository, Commit(store.nextForeign, ForeignCommit));
        QualityGrows(limits, store, after);
      }
    } else if after.events == store.events {
      QualityGrows(limits, store, after);
    } else {
      var event := after.events[|store.events|];
      assert after.events == store.events + [event];
      LogKeepsQuality(limits, store, event);
      QualityGrows(limits, Logged(store, event), after);
    }
  }

  /** A vector recorded as passed was verified on exactly its commits, if these are the current heads. */
  lemma CurrentPassIsVerified(store: Store, events: seq<Event>, units: seq<Repository>, heads: Heads)
    requires Passed(store, events, units, heads) && store.Prepared(units) && heads == HeadsOf(store, units)
    ensures Verified(events, units, heads)
  {
    var i: nat :| PassedAt(store, events, i, units, heads);
    forall k | 0 <= k < |units| ensures events[i + k] == GateRun(units[k], heads[units[k]], true, true) {
      assert PassedOn(store, events[i + k], units[k], heads[units[k]]);
    }
    assert VerifiedAt(events, i, units, heads);
  }

  lemma CurrentReviewIsApproved(store: Store, events: seq<Event>, units: seq<Repository>, heads: Heads)
    requires Reviewed(store, events, units, heads) && store.Prepared(units) && heads == HeadsOf(store, units)
    ensures Approved(events, units, heads)
  {
    var j: nat :| j < |events| && events[j] == ReviewRecorded(heads) && Passed(store, events[..j], units, heads);
    CurrentPassIsVerified(store, events[..j], units, heads);
  }

  /** An allowed effect keeps every invariant. */
  lemma AllowedKeepsStore(limits: Limits, store: Store, effect: Effect)
    requires StoreOk(limits, store) && Allowed(limits, store, effect)
    ensures StoreOk(limits, Apply(store, effect))
  {
    BranchesKept(limits, store, effect);
    NumberingKept(limits, store, effect);
    FixesKept(limits, store, effect);
    QualityKept(limits, store, effect);
  }

  /** Every effect of the list obeys the rules when its turn comes. */
  ghost predicate AllAllowed(limits: Limits, store: Store, effects: seq<Effect>) {
    |effects| > 0 ==>
      && AllAllowed(limits, store, effects[..|effects| - 1])
      && Allowed(limits, ApplyAll(store, effects[..|effects| - 1]), effects[|effects| - 1])
  }

  /** After any prefix of an allowed list, that is, after a crash anywhere in it, the store is in order. */
  lemma {:induction false} CrashAnywhere(limits: Limits, store: Store, effects: seq<Effect>, crash: nat)
    requires StoreOk(limits, store) && AllAllowed(limits, store, effects) && crash <= |effects|
    ensures StoreOk(limits, ApplyAll(store, effects[..crash]))
  {
    if crash < |effects| {
      CrashAnywhere(limits, store, effects[..|effects| - 1], crash);
      assert effects[..|effects| - 1][..crash] == effects[..crash];
    } else if |effects| > 0 {
      var shorter := effects[..|effects| - 1];
      CrashAnywhere(limits, store, shorter, |shorter|);
      assert shorter[..|shorter|] == shorter && effects[..crash] == effects;
      AllowedKeepsStore(limits, ApplyAll(store, shorter), effects[|effects| - 1]);
    }
  }
}
