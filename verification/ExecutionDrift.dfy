/**
 Commits that somebody else makes between the effects of a handler's run. A run's plan is made for the heads it found;
 the branches may go on at any moment, and the rules of the store still hold for every effect when its turn comes.
 */
module ExecutionDrift {
  import opened Commits
  import opened ExecutionStore
  import opened StagePlans
  import opened ExecutionSafety

  /** The effects of the run itself, without what others did in between. */
  function Own(woven: seq<Effect>): seq<Effect> {
    if |woven| == 0 then []
    else
      var earlier := Own(woven[..|woven| - 1]);
      if woven[|woven| - 1].ForeignMove? then earlier else earlier + [woven[|woven| - 1]]
  }

  lemma OwnNext(woven: seq<Effect>, effect: Effect)
    ensures Own(woven + [effect]) == if effect.ForeignMove? then Own(woven) else Own(woven) + [effect]
  {
    assert (woven + [effect])[..|woven|] == woven;
  }

  // ------------------------------------------------------------------ a store and the same store with others at work

  /** `after` holds everything `before` does, in addition only foreign commits, and its head is the same or new. */
  predicate Grown(before: seq<Commit>, after: seq<Commit>) {
    && |before| > 0 && |after| > 0
    && (forall i :: 0 <= i < |before| ==> before[i] in after)
    && (forall i :: 0 <= i < |after| ==> after[i] in before || after[i].origin.ForeignCommit?)
    && (after[|after| - 1] == before[|before| - 1] || after[|after| - 1] !in before)
  }

  /** The same fact, or a gate that met a head the run did not expect on a branch that had gone on. */
  predicate SameFact(store: Store, expected: Event, actual: Event) {
    || actual == expected
    || (expected.GateRun? && actual.GateRun? && Stale(store, expected.repository, expected.commit)
        && actual == expected.(commit := actual.commit))
  }

  predicate SameFacts(store: Store, expected: seq<Event>, actual: seq<Event>) {
    |actual| == |expected| && forall i :: 0 <= i < |expected| ==> SameFact(store, expected[i], actual[i])
  }

  /** `actual` is what `expected` becomes when others move branches meanwhile. */
  ghost predicate Follows(expected: Store, actual: Store) {
    && actual.checkpoints == expected.checkpoints && actual.attempts == expected.attempts
    && actual.dirty == expected.dirty && actual.rows == expected.rows && actual.nextCommit == expected.nextCommit
    && actual.branches.Keys == expected.branches.Keys
    && (forall unit :: unit in expected.branches ==> Grown(expected.branches[unit], actual.branches[unit]))
    && SameFacts(actual, expected.events, actual.events)
  }

  lemma FollowsItself(store: Store)
    requires forall unit :: unit in store.branches ==> |store.branches[unit]| > 0
    ensures Follows(store, store)
  {
  }

  lemma StaleFollows(expected: Store, actual: Store, unit: Repository, commit: Commit)
    requires Follows(expected, actual) && Stale(expected, unit, commit)
    ensures Stale(actual, unit, commit)
  {
    assert Grown(expected.branches[unit], actual.branches[unit]);
    var i :| 0 <= i < |expected.branches[unit]| && expected.branches[unit][i] == commit;
  }

  lemma FactsStay(before: Store, after: Store, expected: seq<Event>, actual: seq<Event>)
    requires SameFacts(before, expected, actual) && StaysStale(before, after)
    ensures SameFacts(after, expected, actual)
  {
  }

  /** Somebody else's commit. */
  lemma FollowsMove(limits: Limits, expected: Store, actual: Store, unit: Repository)
    requires BranchesOk(limits, actual) && Follows(expected, actual)
    ensures Follows(expected, Apply(actual, ForeignMove(unit)))
  {
    var after := Apply(actual, ForeignMove(unit));
    if unit in actual.branches {
      var commit := Commit(actual.nextForeign, ForeignCommit);
      GrowthStaysStale(actual, after, unit, commit);
      FactsStay(actual, after, expected.events, actual.events);
      assert BranchOk(actual.branches[unit], actual.nextCommit, actual.nextForeign);
      assert commit !in actual.branches[unit];
      GrownByOther(expected.branches[unit], actual.branches[unit], commit);
    }
  }

  lemma GrownByOther(before: seq<Commit>, after: seq<Commit>, commit: Commit)
    requires Grown(before, after) && commit.origin.ForeignCommit? && commit !in after
    ensures Grown(before, after + [commit])
  {
    assert forall i :: 0 <= i < |before| ==> before[i] in after;
  }

  lemma GrownTogether(before: seq<Commit>, after: seq<Commit>, commit: Commit)
    requires Grown(before, after)
    ensures Grown(before + [commit], after + [commit])
  {
    forall i | 0 <= i < |before + [commit]| ensures (before + [commit])[i] in after + [commit] {
      if i < |before| {
        assert before[i] in after;
      }
    }
  }

  lemma FollowsCommit(limits: Limits, expected: Store, actual: Store, unit: Repository, commit: Commit)
    requires BranchesOk(limits, actual) && Follows(expected, actual)
    requires Allowed(limits, actual, MakeCommit(unit, commit))
    ensures Follows(Apply(expected, MakeCommit(unit, commit)), Apply(actual, MakeCommit(unit, commit)))
  {
    var grown := Appended(actual, unit, commit);
    GrowthStaysStale(actual, grown, unit, commit);
    FactsStay(actual, grown, expected.events, actual.events);
    GrownTogether(expected.branches[unit], actual.branches[unit], commit);
    FactsStay(grown, Apply(actual, MakeCommit(unit, commit)), expected.events, actual.events);
  }

  lemma FollowsGate(expected: Store, actual: Store, unit: Repository, passed: bool)
    requires Follows(expected, actual)
    ensures Follows(Apply(expected, RunGate(unit, passed)), Apply(actual, RunGate(unit, passed)))
  {
    if unit in expected.branches {
      var before, after := expected.branches[unit], actual.branches[unit];
      assert Grown(before, after);
      var result := Apply(actual, RunGate(unit, passed));
      assert before[|before| - 1] in after;
      FactsStay(actual, result, expected.events, actual.events);
    }
  }

  lemma FactsAppended(store: Store, expected: seq<Event>, actual: seq<Event>, more: seq<Event>)
    requires SameFacts(store, expected, actual)
    ensures SameFacts(store, expected + more, actual + more)
  {
  }

  predicate Plain(effect: Effect) {
    !effect.ForeignMove? && !effect.MakeCommit? && !effect.RunGate?
  }

  /** What a plain effect logs. */
  function PlainEvent(store: Store, effect: Effect): seq<Event>
    requires Plain(effect)
  {
    match effect
    case RunAgent(writes, _) => if writes then [AgentStarted(store.dirty == {})] else []
    case SaveQuality(heads) => [QualityRecorded(heads)]
    case SaveFixRequest(request) => [FixRequested(request.id)]
    case SaveFixApplied(id) => [FixRecorded(id)]
    case SaveReview(heads) => [ReviewRecorded(heads)]
    case Push(unit, heads) => [Pushed(unit, heads)]
    case _ => []
  }

  lemma PlainShape(store: Store, effect: Effect)
    requires Plain(effect)
    ensures Apply(store, effect).branches == store.branches
    ensures Apply(store, effect).events == store.events + PlainEvent(store, effect)
  {
  }

  /** Everything but branches and facts is the same. */
  predicate SameRest(left: Store, right: Store) {
    && right.checkpoints == left.checkpoints && right.attempts == left.attempts && right.dirty == left.dirty
    && right.rows == left.rows && right.nextCommit == left.nextCommit
  }

  lemma PlainKeepsRest(left: Store, right: Store, effect: Effect)
    requires SameRest(left, right) && Plain(effect)
    ensures SameRest(Apply(left, effect), Apply(right, effect))
  {
  }

  /** Effects that change no branch: each logs the same fact on both sides, or none. */
  lemma PlainFollows(expected: Store, actual: Store, effect: Effect)
    requires Follows(expected, actual) && Plain(effect)
    ensures Follows(Apply(expected, effect), Apply(actual, effect))
  {
    hide SameFacts, Grown, Apply;
    var left, right := Apply(expected, effect), Apply(actual, effect);
    PlainShape(expected, effect);
    PlainShape(actual, effect);
    PlainKeepsRest(expected, actual, effect);
    FactsAppended(actual, expected.events, actual.events, PlainEvent(expected, effect));
    FactsStay(actual, right, left.events, right.events);
  }

  /** Every effect of the run itself keeps the two together. */
  lemma FollowsEffect(limits: Limits, expected: Store, actual: Store, effect: Effect)
    requires BranchesOk(limits, actual) && Follows(expected, actual) && !effect.ForeignMove?
    requires effect.MakeCommit? ==> Allowed(limits, actual, effect)
    ensures Follows(Apply(expected, effect), Apply(actual, effect))
  {
    if effect.MakeCommit? {
      FollowsCommit(limits, expected, actual, effect.repository, effect.commit);
    } else if effect.RunGate? {
      FollowsGate(expected, actual, effect.repository, effect.passed);
    } else {
      PlainFollows(expected, actual, effect);
    }
  }

  // ------------------------------------------------------------------ the rules under drift

  lemma PassFollows(expected: Store, actual: Store, i: nat, units: seq<Repository>, heads: Heads)
    requires Follows(expected, actual) && PassedAt(expected, expected.events, i, units, heads)
    ensures PassedAt(actual, actual.events, i, units, heads)
  {
    forall k | 0 <= k < |units| ensures PassedOn(actual, actual.events[i + k], units[k], heads[units[k]]) {
      assert PassedOn(expected, expected.events[i + k], units[k], heads[units[k]]);
      assert SameFact(actual, expected.events[i + k], actual.events[i + k]);
      if Stale(expected, units[k], heads[units[k]]) {
        StaleFollows(expected, actual, units[k], heads[units[k]]);
      }
    }
  }

  lemma NotRequestedFollows(expected: Store, actual: Store, id: RequestId)
    requires Follows(expected, actual) && FixRequested(id) !in expected.events
    ensures FixRequested(id) !in actual.events
  {
    forall i | 0 <= i < |actual.events| ensures actual.events[i] != FixRequested(id) {
      assert SameFact(actual, expected.events[i], actual.events[i]);
    }
  }

  lemma HeadsFollow(expected: Store, actual: Store, heads: Heads)
    requires Follows(expected, actual) && OnBranches(expected, heads)
    ensures OnBranches(actual, heads)
  {
    forall unit | unit in heads ensures unit in actual.branches && heads[unit] in actual.branches[unit] {
      assert heads[unit] in expected.branches[unit];
      assert Grown(expected.branches[unit], actual.branches[unit]);
    }
  }

  lemma CommitFollows(limits: Limits, expected: Store, actual: Store, unit: Repository, commit: Commit)
    requires Follows(expected, actual) && Allowed(limits, expected, MakeCommit(unit, commit))
    ensures Allowed(limits, actual, MakeCommit(unit, commit))
  {
    var before, after := expected.branches[unit], actual.branches[unit];
    assert Grown(before, after);
    forall i | 0 <= i < |after|
      ensures after[i].origin.ForeignCommit? || exists j :: 0 <= j < |before| && before[j] == after[i]
    {
    }
  }

  /** Whatever the rules allow on the heads the run found, they allow on branches that have gone on. */
  lemma AllowedFollows(limits: Limits, expected: Store, actual: Store, effect: Effect)
    requires Follows(expected, actual) && Allowed(limits, expected, effect) && !effect.Push?
    ensures Allowed(limits, actual, effect)
  {
    match effect
    case MakeCommit(unit, commit) => CommitFollows(limits, expected, actual, unit, commit);
    case SaveImplementation(implementation) =>
      forall i | 0 <= i < |limits.units|
        ensures implementation.commits[limits.units[i]] in actual.branches[limits.units[i]]
      {
        assert implementation.commits[limits.units[i]] in expected.branches[limits.units[i]];
        assert Grown(expected.branches[limits.units[i]], actual.branches[limits.units[i]]);
      }
    case SaveQuality(heads) =>
      PassFollows(expected, actual, |expected.events| - |limits.units|, limits.units, heads);
    case SaveFixRequest(request) =>
      NotRequestedFollows(expected, actual, request.id);
      HeadsFollow(expected, actual, request.heads);
    case _ =>
  }

  // ------------------------------------------------------------------ whole runs

  /** What the run pushes had been verified and approved when it began. */
  ghost predicate PushesSettled(limits: Limits, events: seq<Event>, effects: seq<Effect>) {
    forall i :: 0 <= i < |effects| && effects[i].Push? ==> Approved(events, limits.units, effects[i].heads)
  }

  /** The woven run so far: allowed, alongside the plan, and with nothing of the past rewritten. */
  ghost predicate WovenSoFar(limits: Limits, store: Store, woven: seq<Effect>) {
    && AllAllowed(limits, store, woven)
    && StoreOk(limits, ApplyAll(store, woven))
    && Follows(ApplyAll(store, Own(woven)), ApplyAll(store, woven))
    && store.events <= ApplyAll(store, woven).events
  }

  lemma WovenNext(limits: Limits, store: Store, woven: seq<Effect>, effect: Effect)
    requires WovenSoFar(limits, store, woven)
    requires effect.Push? ==> Approved(store.events, limits.units, effect.heads)
    requires !effect.ForeignMove? ==> Allowed(limits, ApplyAll(store, Own(woven)), effect)
    ensures WovenSoFar(limits, store, woven + [effect])
  {
    hide ApplyAll, AllAllowed, StoreOk, Follows, Own;
    var expected, actual := ApplyAll(store, Own(woven)), ApplyAll(store, woven);
    StoreHasBranches(limits, actual);
    OwnNext(woven, effect);
    ApplyNext(store, woven, effect);
    if effect.ForeignMove? {
      FollowsMove(limits, expected, actual, effect.repository);
    } else {
      ApplyNext(store, Own(woven), effect);
      if effect.Push? {
        ApprovedGrows(store.events, actual.events, limits.units, effect.heads);
      } else {
        AllowedFollows(limits, expected, actual, effect);
      }
      FollowsEffect(limits, expected, actual, effect);
    }
    AllowedKeepsStore(limits, actual, effect);
    AllowedOneMore(limits, store, woven, effect);
    assert store.events <= Apply(actual, effect).events;
  }

  lemma StoreHasBranches(limits: Limits, store: Store)
    requires StoreOk(limits, store)
    ensures BranchesOk(limits, store)
  {
  }

  lemma AllowedOneMore(limits: Limits, store: Store, woven: seq<Effect>, effect: Effect)
    requires AllAllowed(limits, store, woven) && Allowed(limits, ApplyAll(store, woven), effect)
    ensures AllAllowed(limits, store, woven + [effect])
  {
    assert (woven + [effect])[..|woven|] == woven;
  }

  lemma WovenBegins(limits: Limits, store: Store)
    requires StoreOk(limits, store)
    ensures WovenSoFar(limits, store, [])
  {
    FollowsItself(store);
  }

  /** A plan that obeys the rules undisturbed obeys them whatever others commit between its effects. */
  lemma {:induction false} WovenAllowed(limits: Limits, store: Store, woven: seq<Effect>)
    requires StoreOk(limits, store) && AllAllowed(limits, store, Own(woven))
    requires PushesSettled(limits, store.events, Own(woven))
    ensures WovenSoFar(limits, store, woven)
  {
    hide ApplyAll, StoreOk, Follows, Approved;
    if |woven| == 0 {
      WovenBegins(limits, store);
    } else {
      var shorter, last := woven[..|woven| - 1], woven[|woven| - 1];
      assert woven == shorter + [last];
      OwnNext(shorter, last);
      if !last.ForeignMove? {
        var own := Own(shorter) + [last];
        assert own[..|own| - 1] == Own(shorter) && own[|own| - 1] == last;
        assert forall i :: 0 <= i < |Own(shorter)| ==> own[i] == Own(shorter)[i];
      }
      WovenAllowed(limits, store, shorter);
      WovenNext(limits, store, shorter, last);
    }
  }
}
