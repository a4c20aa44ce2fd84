/**
 When a recorded pass is true. The testing handler reads the heads once, runs the gates unit by unit and records a pass
 for the heads it read; somebody may move any branch at any moment in between.
 */
module GatePasses {
  import opened Wrappers
  import opened Domain
  import opened Commits
  import opened ExecutionStore
  import opened StagePlans
  import opened ExecutionSafety
  import opened ExecutionDrift
  import opened ExecutionPlansSafe
  import Tasks

  /** Somebody moved the unit's branch before the gate of unit `k`, which two effects and `k` other gates precede. */
  predicate MovedBeforeGate(woven: seq<Effect>, unit: Repository, k: nat) {
    exists t :: 0 <= t < |woven| && woven[t] == ForeignMove(unit) && |Own(woven[..t])| <= 2 + k
  }

  lemma MovedLater(woven: seq<Effect>, effect: Effect, unit: Repository, k: nat)
    requires |Own(woven)| > 2 + k || effect != ForeignMove(unit)
    ensures MovedBeforeGate(woven + [effect], unit, k) <==> MovedBeforeGate(woven, unit, k)
  {
    var longer := woven + [effect];
    assert longer[..|woven|] == woven;
    if MovedBeforeGate(longer, unit, k) {
      var t :| 0 <= t < |longer| && longer[t] == ForeignMove(unit) && |Own(longer[..t])| <= 2 + k;
      assert longer[..t] == woven[..t];
    }
    if MovedBeforeGate(woven, unit, k) {
      var t :| 0 <= t < |woven| && woven[t] == ForeignMove(unit) && |Own(woven[..t])| <= 2 + k;
      assert longer[..t] == woven[..t] && longer[t] == woven[t];
    }
  }

  lemma AnyMoveCounts(woven: seq<Effect>, unit: Repository, k: nat)
    requires |Own(woven)| <= 2 + k
    ensures MovedBeforeGate(woven, unit, k) <==> ForeignMove(unit) in woven
  {
    if ForeignMove(unit) in woven {
      var t :| 0 <= t < |woven| && woven[t] == ForeignMove(unit);
      OwnOfPrefix(woven, t);
    }
  }

  /** Branches only go on, and exactly those that somebody moved. */
  predicate MovedExactly(store: Store, now: Store, units: seq<Repository>, woven: seq<Effect>) {
    && now.Prepared(units) && store.Prepared(units)
    && forall k :: 0 <= k < |units| ==>
         GoneOn(store.branches[units[k]], now.branches[units[k]], ForeignMove(units[k]) in woven)
  }

  predicate GoneOn(before: seq<Commit>, after: seq<Commit>, moved: bool) {
    before <= after && (after == before <==> !moved)
  }

  /** The number of gates among the first `n` effects of a testing run. */
  function GatesAmong(n: nat, units: nat): nat {
    if n < 2 then 0 else if n - 2 < units then n - 2 else units
  }

  /** Each gate so far passed, on the head the run had read exactly if nobody had moved it before. */
  predicate GatesTell(store: Store, now: Store, units: seq<Repository>, woven: seq<Effect>) {
    var gates := GatesAmong(|Own(woven)|, |units|);
    && |now.events| >= |store.events| + gates
    && (|Own(woven)| <= 2 + |units| ==> |now.events| == |store.events| + gates)
    && store.Prepared(units)
    && forall k :: 0 <= k < gates ==> GateTells(store, now.events[|store.events| + k], units[k], woven, k)
  }

  predicate GateTells(store: Store, event: Event, unit: Repository, woven: seq<Effect>, k: nat)
    requires unit in store.branches && |store.branches[unit]| > 0
  {
    && event.GateRun? && event == GateRun(unit, event.commit, true, true)
    && (event.commit == store.Head(unit) <==> !MovedBeforeGate(woven, unit, k))
  }

  /** The effects of a testing run in which every gate passes. */
  predicate PassingRun(units: seq<Repository>, effects: seq<Effect>) {
    && |effects| >= 2 + |units|
    && (forall i :: 0 <= i < |effects| ==> !effects[i].MakeCommit? && !effects[i].RecordUnit?)
    && (forall i :: 0 <= i < 2 ==> effects[i].Restore? || effects[i].StartAttempt?)
    && (forall k :: 0 <= k < |units| ==> effects[2 + k] == RunGate(units[k], true))
  }

  lemma MovedExactlyNext(limits: Limits, store: Store, now: Store, woven: seq<Effect>, effect: Effect)
    requires MovedExactly(store, now, limits.units, woven) && BranchesOk(limits, now)
    requires !effect.MakeCommit? && !effect.RecordUnit?
    ensures MovedExactly(store, Apply(now, effect), limits.units, woven + [effect])
  {
    hide GoneOn, BranchesOk;
    var after, units := Apply(now, effect), limits.units;
    BranchesAfter(now, effect);
    forall k | 0 <= k < |units|
      ensures GoneOn(store.branches[units[k]], after.branches[units[k]], ForeignMove(units[k]) in woven + [effect])
    {
      assert ForeignMove(units[k]) in woven + [effect]
          <==> ForeignMove(units[k]) in woven || effect == ForeignMove(units[k]);
      GoesOn(store.branches[units[k]], now.branches[units[k]], ForeignMove(units[k]) in woven,
             Commit(now.nextForeign, ForeignCommit));
    }
  }

  lemma BranchesAfter(now: Store, effect: Effect)
    requires !effect.MakeCommit? && !effect.RecordUnit?
    ensures var after := Apply(now, effect);
      && after.rows == now.rows && after.branches.Keys == now.branches.Keys
      && forall unit :: unit in now.branches ==>
           after.branches[unit]
           == now.branches[unit] + if effect == ForeignMove(unit) then [Commit(now.nextForeign, ForeignCommit)] else []
  {
  }

  lemma GoesOn(before: seq<Commit>, after: seq<Commit>, moved: bool, commit: Commit)
    requires GoneOn(before, after, moved)
    ensures GoneOn(before, after + [commit], true)
  {
  }

  /** A branch that has gone on has another head. */
  lemma HeadTells(limits: Limits, store: Store, now: Store, woven: seq<Effect>, k: nat)
    requires MovedExactly(store, now, limits.units, woven) && BranchesOk(limits, now) && k < |limits.units|
    ensures now.Head(limits.units[k]) == store.Head(limits.units[k]) <==> ForeignMove(limits.units[k]) !in woven
  {
    var unit := limits.units[k];
    var before, after := store.branches[unit], now.branches[unit];
    assert BranchOk(after, now.nextCommit, now.nextForeign);
    assert before <= after;
    assert after[|before| - 1] == before[|before| - 1];
    if |after| == |before| {
      assert after == before;
    }
  }

  lemma GateTellsLater(store: Store, event: Event, unit: Repository, woven: seq<Effect>, effect: Effect, k: nat)
    requires unit in store.branches && |store.branches[unit]| > 0 && GateTells(store, event, unit, woven, k)
    requires |Own(woven)| > 2 + k
    ensures GateTells(store, event, unit, woven + [effect], k)
  {
    MovedLater(woven, effect, unit, k);
  }

  /** The gate whose turn it is. */
  lemma GateNow(limits: Limits, store: Store, now: Store, woven: seq<Effect>, k: nat)
    requires MovedExactly(store, now, limits.units, woven) && BranchesOk(limits, now) && k < |limits.units|
    requires |Own(woven)| == 2 + k && limits.units[k] !in now.dirty
    ensures var unit := limits.units[k];
      var after := Apply(now, RunGate(unit, true));
      && |after.events| == |now.events| + 1
      && GateTells(store, after.events[|now.events|], unit, woven + [RunGate(unit, true)], k)
  {
    var unit := limits.units[k];
    HeadTells(limits, store, now, woven, k);
    AnyMoveCounts(woven, unit, k);
    MovedLater(woven, RunGate(unit, true), unit, k);
  }

  lemma EventsGrow(store: Store, effect: Effect)
    ensures store.events <= Apply(store, effect).events
    ensures effect.ForeignMove? || effect.Restore? || effect.StartAttempt?
            ==> Apply(store, effect).events == store.events
  {
  }

  /** The gates that have run tell the same after one more effect. */
  lemma GatesStillTell(store: Store, now: Store, units: seq<Repository>, woven: seq<Effect>, effect: Effect)
    requires GatesTell(store, now, units, woven)
    ensures var after := Apply(now, effect);
      forall k :: 0 <= k < GatesAmong(|Own(woven)|, |units|) ==>
        GateTells(store, after.events[|store.events| + k], units[k], woven + [effect], k)
  {
    hide MovedBeforeGate, Apply, GateTells;
    var after := Apply(now, effect);
    EventsGrow(now, effect);
    forall k | 0 <= k < GatesAmong(|Own(woven)|, |units|)
      ensures GateTells(store, after.events[|store.events| + k], units[k], woven + [effect], k)
    {
      assert after.events[|store.events| + k] == now.events[|store.events| + k];
      GateTellsLater(store, now.events[|store.events| + k], units[k], woven, effect, k);
    }
  }

  lemma GatesTellNext(limits: Limits, store: Store, now: Store, effects: seq<Effect>, woven: seq<Effect>,
                      effect: Effect)
    requires PassingRun(limits.units, effects) && Own(woven + [effect]) <= effects
    requires GatesTell(store, now, limits.units, woven) && MovedExactly(store, now, limits.units, woven)
    requires BranchesOk(limits, now) && Allowed(limits, now, effect)
    ensures GatesTell(store, Apply(now, effect), limits.units, woven + [effect])
  {
    hide MovedBeforeGate, BranchesOk, Apply, Own, GateTells, MovedExactly;
    var n, units := |Own(woven)|, limits.units;
    OwnNext(woven, effect);
    EventsGrow(now, effect);
    GatesStillTell(store, now, units, woven, effect);
    if !effect.ForeignMove? {
      assert Own(woven + [effect])[n] == effect && effects[n] == effect;
      if 2 <= n < 2 + |units| {
        assert effects[2 + (n - 2)] == RunGate(units[n - 2], true);
        assert units[n - 2] !in now.dirty;
        GateNow(limits, store, now, woven, n - 2);
      }
    }
  }

  /** The run so far, as far as the gates tell. */
  ghost predicate PassSoFar(limits: Limits, store: Store, woven: seq<Effect>) {
    && MovedExactly(store, ApplyAll(store, woven), limits.units, woven)
    && GatesTell(store, ApplyAll(store, woven), limits.units, woven)
  }

  lemma PassNext(limits: Limits, store: Store, effects: seq<Effect>, woven: seq<Effect>, effect: Effect)
    requires PassingRun(limits.units, effects) && Own(woven + [effect]) <= effects
    requires WovenSoFar(limits, store, woven + [effect]) && WovenSoFar(limits, store, woven)
    requires PassSoFar(limits, store, woven)
    ensures PassSoFar(limits, store, woven + [effect])
  {
    hide ApplyAll, StoreOk, Follows, Allowed, GatesTell, MovedExactly;
    StoreHasBranches(limits, ApplyAll(store, woven));
    ApplyNext(store, woven, effect);
    assert Allowed(limits, ApplyAll(store, woven), effect) by {
      LastAllowed(limits, store, woven, effect);
    }
    OwnNext(woven, effect);
    if !effect.ForeignMove? {
      assert Own(woven + [effect])[|Own(woven)|] == effect;
      assert effect in effects;
    }
    MovedExactlyNext(limits, store, ApplyAll(store, woven), woven, effect);
    GatesTellNext(limits, store, ApplyAll(store, woven), effects, woven, effect);
  }

  lemma LastAllowed(limits: Limits, store: Store, woven: seq<Effect>, effect: Effect)
    requires AllAllowed(limits, store, woven + [effect])
    ensures Allowed(limits, ApplyAll(store, woven), effect)
  {
    assert (woven + [effect])[..|woven|] == woven;
  }

  lemma PassBegins(limits: Limits, store: Store)
    requires StoreOk(limits, store)
    ensures PassSoFar(limits, store, [])
  {
  }

  lemma {:induction false} PassInEveryRun(limits: Limits, task: Tasks.Task, store: Store, input: StageInput,
                                          woven: seq<Effect>)
    requires StoreOk(limits, store) && DistinctUnits(limits.units)
    requires Own(woven) <= StagePlan(limits, task, store, input).effects
    requires PassingRun(limits.units, StagePlan(limits, task, store, input).effects)
    ensures PassSoFar(limits, store, woven)
  {
    hide StagePlan, StoreOk, PassSoFar, WovenSoFar, PassingRun, ApplyAll;
    if |woven| == 0 {
      PassBegins(limits, store);
    } else {
      var shorter, last := woven[..|woven| - 1], woven[|woven| - 1];
      assert woven == shorter + [last];
      OwnNext(shorter, last);
      StoreIsPrepared(limits, store);
      PassInEveryRun(limits, task, store, input, shorter);
      StageCrashSafe(limits, task, store, input, shorter);
      StageCrashSafe(limits, task, store, input, woven);
      PassNext(limits, store, StagePlan(limits, task, store, input).effects, shorter, last);
    }
  }

  lemma TestingIsPassingRun(limits: Limits, task: Tasks.Task, store: Store, input: StageInput)
    requires store.Prepared(limits.units) && task.state == Testing && input.TestInput?
    requires TestingRuns(limits, store, input) && AllGatesPassed(input, limits.units)
    ensures PassingRun(limits.units, StagePlan(limits, task, store, input).effects)
    ensures SaveQuality(HeadsOf(store, limits.units)) in StagePlan(limits, task, store, input).effects
  {
    hide AnalysisPlan, ReadyPlan, ImplementationPlan, FixingPlan, ReviewPlan, DeliveryPlan, ObservationPlan;
    NothingStops(input, limits.units, 0);
    var effects := StagePlan(limits, task, store, input).effects;
    var gates := GateEffects(input, limits.units);
    assert effects == [Restore, StartAttempt(Testing)] + gates + [Restore]
                      + TestingEnding(limits, task, input, HeadsOf(store, limits.units),
                                      NextAttempt(store.AttemptsOf(Testing))).effects;
    forall k | 0 <= k < |limits.units| ensures effects[2 + k] == RunGate(limits.units[k], true) {
      assert effects[2 + k] == gates[k];
    }
    assert effects[2 + |gates| + 1] == SaveQuality(HeadsOf(store, limits.units));
  }

  lemma {:induction false} NothingStops(input: StageInput, units: seq<Repository>, from: nat)
    requires input.TestInput? && AllGatesPassed(input, units) && from <= |units|
    ensures GatesStopAt(input, units, from) == |units|
    decreases |units| - from
  {
    if from < |units| {
      NothingStops(input, units, from + 1);
    }
  }

  /**
   A testing run whose gates all pass records a pass for the heads it read. That pass is true (each gate ran on the head
   that is recorded for its unit) if and only if nobody moved a unit's branch before the unit's own gate.
   */
  lemma PassIsTrueExactlyWhenNothingMovedFirst(limits: Limits, task: Tasks.Task, store: Store, input: StageInput,
                                               woven: seq<Effect>)
    requires StoreOk(limits, store) && DistinctUnits(limits.units) && task.state == Testing && input.TestInput?
    requires TestingRuns(limits, store, input) && AllGatesPassed(input, limits.units)
    requires Own(woven) <= StagePlan(limits, task, store, input).effects && |Own(woven)| >= 2 + |limits.units|
    ensures SaveQuality(HeadsOf(store, limits.units)) in StagePlan(limits, task, store, input).effects
    ensures VerifiedAt(ApplyAll(store, woven).events, |store.events|, limits.units, HeadsOf(store, limits.units))
       <==> forall k :: 0 <= k < |limits.units| ==> !MovedBeforeGate(woven, limits.units[k], k)
  {
    hide StagePlan, StoreOk, ApplyAll, MovedBeforeGate, TestingRuns, Own, PassingRun, PassSoFar, VerifiedAt;
    StoreIsPrepared(limits, store);
    TestingIsPassingRun(limits, task, store, input);
    PassInEveryRun(limits, task, store, input, woven);
    GatesTellThePass(limits, store, woven);
  }

  lemma GatesTellThePass(limits: Limits, store: Store, woven: seq<Effect>)
    requires store.Prepared(limits.units) && PassSoFar(limits, store, woven) && |Own(woven)| >= 2 + |limits.units|
    ensures VerifiedAt(ApplyAll(store, woven).events, |store.events|, limits.units, HeadsOf(store, limits.units))
       <==> forall k :: 0 <= k < |limits.units| ==> !MovedBeforeGate(woven, limits.units[k], k)
  {
    hide ApplyAll, MovedBeforeGate, Own, MovedExactly;
    HeadsAreHeads(store, limits.units);
    var events, units := ApplyAll(store, woven).events, limits.units;
    forall k | 0 <= k < |units|
      ensures units[k] in HeadsOf(store, units)
      ensures events[|store.events| + k] == GateRun(units[k], HeadsOf(store, units)[units[k]], true, true)
         <==> !MovedBeforeGate(woven, units[k], k)
    {
      assert GateTells(store, events[|store.events| + k], units[k], woven, k);
    }
  }

  /** A testing run on one unit whose branch somebody moves just before the gate. */
  function LateMove(unit: Repository, heads: Heads): seq<Effect> {
    [Restore, StartAttempt(Testing), ForeignMove(unit), RunGate(unit, true), Restore, SaveQuality(heads)]
  }

  /** Such a run, one effect at a time. */
  lemma LateMoveGrows(unit: Repository, heads: Heads)
    ensures var woven := LateMove(unit, heads);
      && woven[..1] == [] + [Restore] && woven[..2] == woven[..1] + [StartAttempt(Testing)]
      && woven[..3] == woven[..2] + [ForeignMove(unit)] && woven[..4] == woven[..3] + [RunGate(unit, true)]
      && woven[..5] == woven[..4] + [Restore] && woven == woven[..5] + [SaveQuality(heads)]
  {
  }

  lemma OwnOfLateMove(unit: Repository, heads: Heads)
    ensures Own(LateMove(unit, heads))
         == [Restore, StartAttempt(Testing), RunGate(unit, true), Restore, SaveQuality(heads)]
  {
    var woven := LateMove(unit, heads);
    LateMoveGrows(unit, heads);
    OwnNext([], Restore);
    OwnNext(woven[..1], StartAttempt(Testing));
    OwnNext(woven[..2], ForeignMove(unit));
    OwnNext(woven[..3], RunGate(unit, true));
    OwnNext(woven[..4], Restore);
    OwnNext(woven[..5], SaveQuality(heads));
  }

  /** What that run leaves of the past and of the pass. */
  lemma LateMoveApplied(store: Store, unit: Repository, heads: Heads)
    requires unit in store.branches && |store.branches[unit]| > 0
    ensures var after := ApplyAll(store, LateMove(unit, heads));
      && after.checkpoints.qualityPassed == Some(heads)
      && after.events == store.events + [GateRun(unit, Commit(store.nextForeign, ForeignCommit), true, true),
                                         QualityRecorded(heads)]
  {
    var woven := LateMove(unit, heads);
    LateMoveGrows(unit, heads);
    ApplyNext(store, [], Restore);
    ApplyNext(store, woven[..1], StartAttempt(Testing));
    ApplyNext(store, woven[..2], ForeignMove(unit));
    ApplyNext(store, woven[..3], RunGate(unit, true));
    ApplyNext(store, woven[..4], Restore);
    ApplyNext(store, woven[..5], SaveQuality(heads));
  }

  lemma LateMoveFollowsPlan(limits: Limits, task: Tasks.Task, store: Store, unit: Repository)
    requires limits.units == [unit] && FreshStore(limits, store) && task.state == Testing
    ensures Own(LateMove(unit, HeadsOf(store, [unit])))
         <= StagePlan(limits, task, store, TestInput(false, [GatePassed])).effects
  {
    var heads := HeadsOf(store, [unit]);
    OwnOfLateMove(unit, heads);
    var input := TestInput(false, [GatePassed]);
    NothingStops(input, limits.units, 0);
    assert GateEffects(input, limits.units) == [RunGate(unit, true)];
  }

  /**
   A pass can be recorded for a commit that no gate ran on: the gate of a new task's only unit passes on somebody else's
   commit, and the pass names the head the run had read.
   */
  lemma LateMoveRecordsUngatedHead(limits: Limits, task: Tasks.Task, store: Store, unit: Repository)
    requires limits.units == [unit] && FreshStore(limits, store) && task.state == Testing
    ensures var heads := HeadsOf(store, [unit]);
      var after := ApplyAll(store, LateMove(unit, heads));
      && StoreOk(limits, store)
      && Own(LateMove(unit, heads)) <= StagePlan(limits, task, store, TestInput(false, [GatePassed])).effects
      && after.checkpoints.qualityPassed == Some(heads)
      && !VerifiedAt(after.events, 0, [unit], heads)
      && (forall i :: 0 <= i < |after.events| && after.events[i].GateRun? ==> after.events[i].commit != heads[unit])
  {
    var heads := HeadsOf(store, [unit]);
    OwnOfLateMove(unit, heads);
    FreshIsOk(limits, store);
    LateMoveApplied(store, unit, heads);
    LateMoveFollowsPlan(limits, task, store, unit);
  }
}
