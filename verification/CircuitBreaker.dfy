/**
 The circuit breaker under interleaved calls. `execute` is split where it awaits the operation: a call begins, other
 calls begin and end, and it ends.
 */
module CircuitBreaker {
  import opened Wrappers

  datatype Circuit = Closed | Open | HalfOpen

  datatype Config = Config(failureThreshold: nat, openMs: nat)

  /** The breaker's fields, the clock, and the calls in flight; a call is true when it is the probe. */
  datatype Breaker = Breaker(
    failures: nat,
    circuit: Circuit,
    openUntil: Option<int>,
    probeInFlight: bool,
    clock: int,
    running: map<nat, bool>)

  datatype Step =
    | Begin(call: nat)
    | Succeed(call: nat)
    /** The operation threw; `hint` is the time until which the provider asked callers to wait. */
    | Fail(call: nat, counted: bool, hint: Option<int>)
    | ReadStatus
    | Elapse(ms: nat)

  function Transitioned(breaker: Breaker, circuit: Circuit, openUntil: Option<int>): Breaker {
    breaker.(circuit := circuit, openUntil := openUntil)
  }

  function Refreshed(breaker: Breaker): Breaker {
    if breaker.circuit.Open? && breaker.openUntil.Some? && breaker.clock >= breaker.openUntil.value
    then Transitioned(breaker, HalfOpen, None) else breaker
  }

  predicate Refuses(breaker: Breaker) {
    breaker.circuit.Open? || (breaker.circuit.HalfOpen? && breaker.probeInFlight)
  }

  /** A hint only counts when it lies in the future. */
  function Hinted(breaker: Breaker, hint: Option<int>): Option<int> {
    if hint.Some? && hint.value > breaker.clock then hint else None
  }

  function ReopenTime(config: Config, breaker: Breaker, hint: Option<int>): int {
    if Hinted(breaker, hint).Some? then Hinted(breaker, hint).value else breaker.clock + config.openMs
  }

  function Ended(breaker: Breaker, call: nat): Breaker
    requires call in breaker.running
  {
    breaker.(probeInFlight := if breaker.running[call] then false else breaker.probeInFlight,
             running := breaker.running - {call})
  }

  function AfterFailure(config: Config, breaker: Breaker, probe: bool, counted: bool, hint: Option<int>): Breaker {
    if counted then
      var failed := breaker.(failures := breaker.failures + 1);
      if probe || Hinted(breaker, hint).Some? || failed.failures >= config.failureThreshold
      then Transitioned(failed, Open, Some(ReopenTime(config, breaker, hint))) else failed
    else if probe then Transitioned(breaker.(failures := 0), Closed, None)
    else breaker
  }

  function Next(config: Config, breaker: Breaker, step: Step): Breaker {
    match step
    case Begin(call) =>
      var current := Refreshed(breaker);
      if call in breaker.running || Refuses(current) then current
      else
        var probe := current.circuit.HalfOpen?;
        current.(probeInFlight := current.probeInFlight || probe, running := current.running[call := probe])
    case Succeed(call) =>
      if call !in breaker.running then breaker
      else
        var openUntil := if breaker.circuit.Closed? then breaker.openUntil else None;
        Ended(Transitioned(breaker.(failures := 0), Closed, openUntil), call)
    case Fail(call, counted, hint) =>
      if call !in breaker.running then breaker
      else Ended(AfterFailure(config, breaker, breaker.running[call], counted, hint), call)
    case ReadStatus => Refreshed(breaker)
    case Elapse(ms) => breaker.(clock := breaker.clock + ms)
  }

  function NextAll(config: Config, breaker: Breaker, steps: seq<Step>): Breaker {
    if |steps| == 0 then breaker else Next(config, NextAll(config, breaker, steps[..|steps| - 1]), steps[|steps| - 1])
  }

  function Initial(now: int): Breaker {
    Breaker(0, Closed, None, false, now, map[])
  }

  // ------------------------------------------------------------------ what always holds

  predicate AtMostOneProbe(breaker: Breaker) {
    forall a, b :: a in breaker.running && b in breaker.running && breaker.running[a] && breaker.running[b] ==> a == b
  }

  predicate ProbeRuns(breaker: Breaker) {
    exists call :: call in breaker.running && breaker.running[call]
  }

  predicate BreakerOk(config: Config, breaker: Breaker) {
    && AtMostOneProbe(breaker)
    && (breaker.probeInFlight <==> ProbeRuns(breaker))
    && (breaker.circuit.Closed? ==> breaker.failures < config.failureThreshold)
    && (breaker.circuit.Open? <==> breaker.openUntil.Some?)
  }

  lemma BeginKeeps(config: Config, breaker: Breaker, call: nat)
    requires BreakerOk(config, breaker)
    ensures BreakerOk(config, Next(config, breaker, Begin(call)))
  {
    var current := Refreshed(breaker);
    var after := Next(config, breaker, Begin(call));
    assert ProbeRuns(current) == ProbeRuns(breaker);
    if call !in breaker.running && !Refuses(current) {
      if current.circuit.HalfOpen? {
        assert after.running[call];
      } else if ProbeRuns(current) {
        var probe :| probe in current.running && current.running[probe];
        assert after.running[probe];
      }
      assert forall other :: other in after.running && other != call
               ==> other in current.running && after.running[other] == current.running[other];
    }
  }

  lemma EndKeepsProbe(breaker: Breaker, call: nat)
    requires call in breaker.running && AtMostOneProbe(breaker) && (breaker.probeInFlight <==> ProbeRuns(breaker))
    ensures AtMostOneProbe(Ended(breaker, call))
    ensures (Ended(breaker, call).probeInFlight <==> ProbeRuns(Ended(breaker, call)))
  {
    var after := Ended(breaker, call);
    if ProbeRuns(breaker) {
      var probe :| probe in breaker.running && breaker.running[probe];
      assert probe != call ==> probe in after.running && after.running[probe];
    }
  }

  lemma StepKeeps(config: Config, breaker: Breaker, step: Step)
    requires config.failureThreshold > 0 && BreakerOk(config, breaker)
    ensures BreakerOk(config, Next(config, breaker, step))
  {
    match step
    case Begin(call) => BeginKeeps(config, breaker, call);
    case Succeed(call) =>
      if call in breaker.running {
        var openUntil := if breaker.circuit.Closed? then breaker.openUntil else None;
        var closed := Transitioned(breaker.(failures := 0), Closed, openUntil);
        assert ProbeRuns(closed) == ProbeRuns(breaker);
        EndKeepsProbe(closed, call);
      }
    case Fail(call, counted, hint) =>
      if call in breaker.running {
        var failed := AfterFailure(config, breaker, breaker.running[call], counted, hint);
        assert ProbeRuns(failed) == ProbeRuns(breaker);
        EndKeepsProbe(failed, call);
      }
    case ReadStatus => assert ProbeRuns(Refreshed(breaker)) == ProbeRuns(breaker);
    case Elapse(ms) => assert ProbeRuns(breaker.(clock := breaker.clock + ms)) == ProbeRuns(breaker);
  }

  /**
   Under any interleaving of beginnings and endings: at most one probe is in flight and the flag says so, a closed
   circuit has failures to spare, and an open circuit has a reopen time.
   */
  lemma {:induction false} BreakerOkInEveryRun(config: Config, start: Breaker, steps: seq<Step>)
    requires config.failureThreshold > 0 && BreakerOk(config, start)
    ensures BreakerOk(config, NextAll(config, start, steps))
  {
    if |steps| > 0 {
      BreakerOkInEveryRun(config, start, steps[..|steps| - 1]);
      StepKeeps(config, NextAll(config, start, steps[..|steps| - 1]), steps[|steps| - 1]);
    }
  }

  predicate Admitted(before: Breaker, after: Breaker, call: nat) {
    call !in before.running && call in after.running
  }

  /**
   In every run a call is admitted only while the circuit is closed, or as the only probe once the reopen time has come;
   calls that began earlier may end in between in any order.
   */
  lemma NoStartWhileOpen(config: Config, start: Breaker, steps: seq<Step>, call: nat)
    requires config.failureThreshold > 0 && BreakerOk(config, start)
    ensures var before := NextAll(config, start, steps);
      var after := Next(config, before, Begin(call));
      Admitted(before, after, call) ==>
        && (before.circuit.Open? ==> before.openUntil.value <= before.clock)
        && (after.running[call] <==> !before.circuit.Closed?)
        && (after.running[call] ==> !ProbeRuns(before))
  {
    BreakerOkInEveryRun(config, start, steps);
  }

  /** A circuit opened by calls that began earlier stays shut to new ones until its reopen time, while no call ends. */
  lemma {:induction false} OpenStaysShut(config: Config, breaker: Breaker, steps: seq<Step>)
    requires breaker.circuit.Open? && breaker.openUntil.Some?
    requires forall i :: 0 <= i < |steps| ==> !steps[i].Succeed? && !steps[i].Fail?
    requires NextAll(config, breaker, steps).clock < breaker.openUntil.value
    ensures NextAll(config, breaker, steps) == breaker.(clock := NextAll(config, breaker, steps).clock)
  {
    if |steps| > 0 {
      var shorter := steps[..|steps| - 1];
      assert NextAll(config, breaker, shorter).clock <= NextAll(config, breaker, steps).clock;
      OpenStaysShut(config, breaker, shorter);
    }
  }

  // ------------------------------------------------------------------ before the reopen time

  /**
   Nothing is let in before `until`, however long callers wait: a probe is in flight, or the circuit is open so long.
   */
  predicate Held(breaker: Breaker, until: int) {
    && !breaker.circuit.Closed?
    && (breaker.probeInFlight
        || (breaker.circuit.Open? && breaker.openUntil.Some? && breaker.openUntil.value >= until))
  }

  /**
   The endings after which a held circuit may let somebody in before `until`: a call succeeds, the probe ends with an
   uncounted error, or a counted failure opens the circuit with an earlier time while no other call is the probe.
   */
  predicate Loosens(config: Config, until: int, breaker: Breaker, step: Step) {
    match step
    case Succeed(call) => call in breaker.running
    case Fail(call, counted, hint) =>
      && call in breaker.running
      && if counted then
           && (breaker.running[call] || Hinted(breaker, hint).Some? || breaker.failures + 1 >= config.failureThreshold)
           && (breaker.running[call] || !breaker.probeInFlight)
           && ReopenTime(config, breaker, hint) < until
         else breaker.running[call]
    case _ => false
  }

  /** `call` is let in after waiting. */
  predicate AdmittedAfter(config: Config, breaker: Breaker, wait: nat, call: nat) {
    var waited := Next(config, breaker, Elapse(wait));
    Admitted(waited, Next(config, waited, Begin(call)), call)
  }

  /** Somebody who only waits is let in before `until`. */
  ghost predicate AdmitsBefore(config: Config, breaker: Breaker, until: int) {
    exists wait: nat, call: nat :: breaker.clock + wait < until && AdmittedAfter(config, breaker, wait, call)
  }

  lemma {:induction false} FreshCall(calls: set<nat>) returns (call: nat)
    ensures forall other :: other in calls ==> other < call
  {
    if calls == {} {
      call := 0;
    } else {
      var some :| some in calls;
      var rest := FreshCall(calls - {some});
      call := if rest <= some then some + 1 else rest;
      assert forall other :: other in calls ==> other == some || other in calls - {some};
    }
  }

  lemma HeldExactlyWhileShut(config: Config, breaker: Breaker, until: int)
    requires BreakerOk(config, breaker) && breaker.clock < until
    ensures AdmitsBefore(config, breaker, until) <==> !Held(breaker, until)
  {
    if !Held(breaker, until) {
      var call := FreshCall(breaker.running.Keys);
      var wait := if breaker.circuit.Open? && breaker.openUntil.value > breaker.clock
                  then breaker.openUntil.value - breaker.clock else 0;
      assert call !in breaker.running.Keys;
      assert AdmittedAfter(config, breaker, wait, call);
    }
  }

  lemma HeldStep(config: Config, breaker: Breaker, step: Step, until: int)
    requires config.failureThreshold > 0 && BreakerOk(config, breaker) && Held(breaker, until) && breaker.clock < until
    ensures Held(Next(config, breaker, step), until) <==> !Loosens(config, until, breaker, step)
  {
    if step.Succeed? || step.Fail? {
      assert step.call in breaker.running && breaker.running[step.call] ==> breaker.probeInFlight;
    }
  }

  /** Step `i` of the run loosens the circuit. */
  predicate LoosensAt(config: Config, until: int, start: Breaker, steps: seq<Step>, i: nat)
    requires i < |steps|
  {
    Loosens(config, until, NextAll(config, start, steps[..i]), steps[i])
  }

  lemma ClockGoesOn(config: Config, breaker: Breaker, step: Step)
    ensures breaker.clock <= Next(config, breaker, step).clock
  {
  }

  lemma {:induction false} PrefixClock(config: Config, start: Breaker, steps: seq<Step>, i: nat)
    requires i <= |steps|
    ensures NextAll(config, start, steps[..i]).clock <= NextAll(config, start, steps).clock
  {
    hide Next;
    if i == |steps| {
      assert steps[..i] == steps;
    } else {
      var shorter := steps[..|steps| - 1];
      assert shorter[..i] == steps[..i];
      PrefixClock(config, start, shorter, i);
      ClockGoesOn(config, NextAll(config, start, shorter), steps[|steps| - 1]);
    }
  }

  lemma NextAfter(config: Config, start: Breaker, steps: seq<Step>, i: nat)
    requires i < |steps|
    ensures NextAll(config, start, steps[..i + 1]) == Next(config, NextAll(config, start, steps[..i]), steps[i])
  {
    assert steps[..i + 1][..i] == steps[..i];
  }

  /** As long as no step loosens it, a held circuit stays held. */
  lemma {:induction false} HeldWhileNothingLoosens(config: Config, start: Breaker, steps: seq<Step>, until: int, i: nat)
    requires config.failureThreshold > 0 && BreakerOk(config, start) && Held(start, until) && i <= |steps|
    requires NextAll(config, start, steps).clock < until
    requires forall j :: 0 <= j < i ==> !LoosensAt(config, until, start, steps, j)
    ensures Held(NextAll(config, start, steps[..i]), until)
  {
    if i > 0 {
      HeldWhileNothingLoosens(config, start, steps, until, i - 1);
      BreakerOkInEveryRun(config, start, steps[..i - 1]);
      PrefixClock(config, start, steps, i - 1);
      NextAfter(config, start, steps, i - 1);
      assert !LoosensAt(config, until, start, steps, i - 1);
      HeldStep(config, NextAll(config, start, steps[..i - 1]), steps[i - 1], until);
    }
  }

  lemma LooseningAdmits(config: Config, start: Breaker, steps: seq<Step>, until: int, i: nat)
    requires config.failureThreshold > 0 && BreakerOk(config, start) && Held(start, until) && i < |steps|
    requires NextAll(config, start, steps).clock < until && LoosensAt(config, until, start, steps, i)
    requires forall j :: 0 <= j < i ==> !LoosensAt(config, until, start, steps, j)
    ensures AdmitsBefore(config, NextAll(config, start, steps[..i + 1]), until)
  {
    hide NextAll, Loosens, Held, AdmitsBefore, BreakerOk;
    HeldWhileNothingLoosens(config, start, steps, until, i);
    BreakerOkInEveryRun(config, start, steps[..i]);
    BreakerOkInEveryRun(config, start, steps[..i + 1]);
    PrefixClock(config, start, steps, i);
    PrefixClock(config, start, steps, i + 1);
    NextAfter(config, start, steps, i);
    HeldStep(config, NextAll(config, start, steps[..i]), steps[i], until);
    HeldExactlyWhileShut(config, NextAll(config, start, steps[..i + 1]), until);
  }

  lemma FirstLoosening(config: Config, start: Breaker, steps: seq<Step>, until: int, i: nat) returns (first: nat)
    requires i < |steps| && LoosensAt(config, until, start, steps, i)
    ensures first <= i && LoosensAt(config, until, start, steps, first)
    ensures forall j :: 0 <= j < first ==> !LoosensAt(config, until, start, steps, j)
  {
    first := 0;
    while !LoosensAt(config, until, start, steps, first)
      invariant first <= i
      invariant forall j :: 0 <= j < first ==> !LoosensAt(config, until, start, steps, j)
      decreases i - first
    {
      first := first + 1;
    }
  }

  /**
   From a circuit open until `until`, over any run that ends earlier: a call can be let in before that time if and only
   if a step of the run loosens the circuit.
   */
  lemma LetInEarlyExactlyWhenLoosened(config: Config, start: Breaker, steps: seq<Step>, until: int)
    requires config.failureThreshold > 0 && BreakerOk(config, start)
    requires start.circuit.Open? && start.openUntil == Some(until) && NextAll(config, start, steps).clock < until
    ensures (exists i :: 0 <= i <= |steps| && AdmitsBefore(config, NextAll(config, start, steps[..i]), until))
       <==> (exists i :: 0 <= i < |steps| && LoosensAt(config, until, start, steps, i))
  {
    hide NextAll, Loosens, AdmitsBefore, BreakerOk;
    if i :| 0 <= i < |steps| && LoosensAt(config, until, start, steps, i) {
      var first := FirstLoosening(config, start, steps, until, i);
      LooseningAdmits(config, start, steps, until, first);
      assert first + 1 <= |steps|;
    } else {
      forall i | 0 <= i <= |steps| ensures !AdmitsBefore(config, NextAll(config, start, steps[..i]), until) {
        HeldWhileNothingLoosens(config, start, steps, until, i);
        BreakerOkInEveryRun(config, start, steps[..i]);
        PrefixClock(config, start, steps, i);
        HeldExactlyWhileShut(config, NextAll(config, start, steps[..i]), until);
      }
    }
  }

  /** Some run lets a call in before `until`. */
  ghost predicate CanBeEarly(config: Config, start: Breaker, until: int) {
    exists steps, call: nat ::
      NextAll(config, start, steps).clock < until && AdmittedAfter(config, NextAll(config, start, steps), 0, call)
  }

  lemma {:induction false} NothingRunsNothingStarts(config: Config, start: Breaker, steps: seq<Step>, until: int)
    requires BreakerOk(config, start) && start.circuit.Open? && start.openUntil == Some(until)
    requires start.running == map[] && NextAll(config, start, steps).clock < until
    ensures NextAll(config, start, steps) == start.(clock := NextAll(config, start, steps).clock)
  {
    if |steps| > 0 {
      var shorter := steps[..|steps| - 1];
      PrefixClock(config, start, steps, |steps| - 1);
      NothingRunsNothingStarts(config, start, shorter, until);
    }
  }

  /** Whether a reopen time can be undercut at all is known when it is set: exactly while some call is running. */
  lemma EarlyExactlyWhileSomethingRuns(config: Config, start: Breaker, until: int)
    requires config.failureThreshold > 0 && BreakerOk(config, start)
    requires start.circuit.Open? && start.openUntil == Some(until) && start.clock < until
    ensures CanBeEarly(config, start, until) <==> start.running != map[]
  {
    if start.running == map[] {
      forall steps, call: nat | NextAll(config, start, steps).clock < until
        ensures !AdmittedAfter(config, NextAll(config, start, steps), 0, call)
      {
        NothingRunsNothingStarts(config, start, steps, until);
      }
    } else {
      var running :| running in start.running;
      var steps := [Succeed(running)];
      assert steps[..0] == [] && NextAll(config, start, []) == start;
      var call := FreshCall(start.running.Keys);
      assert call !in start.running.Keys;
      var after := NextAll(config, start, steps);
      assert after == Next(config, start, Succeed(running));
      assert AdmittedAfter(config, after, 0, call);
    }
  }

  /**
   A provider's hint is not always honoured: a call that began earlier and fails without a hint replaces a later reopen
   time by its own cooldown, after which a probe starts before the hinted time.
   */
  lemma LateFailureShortensHint(config: Config)
    requires config.failureThreshold == 1 && config.openMs == 1000
    ensures var hinted := [Begin(0), Begin(1), Fail(0, true, Some(60000))];
      var late := hinted + [Fail(1, true, None)];
      var probed := late + [Elapse(1000)] + [Begin(2)];
      && NextAll(config, Initial(0), hinted).openUntil == Some(60000)
      && NextAll(config, Initial(0), late).openUntil == Some(1000)
      && 2 in NextAll(config, Initial(0), probed).running && NextAll(config, Initial(0), probed).clock < 60000
  {
    var one, two := [Begin(0)], [Begin(0), Begin(1)];
    var hinted := two + [Fail(0, true, Some(60000))];
    var late := hinted + [Fail(1, true, None)];
    assert one[..0] == [] && two[..1] == one && hinted[..2] == two && late[..3] == hinted;
    assert NextAll(config, Initial(0), one) == Breaker(0, Closed, None, false, 0, map[0 := false]);
    assert NextAll(config, Initial(0), two) == Breaker(0, Closed, None, false, 0, map[0 := false, 1 := false]);
    assert NextAll(config, Initial(0), hinted) == Breaker(1, Open, Some(60000), false, 0, map[1 := false]);
    assert NextAll(config, Initial(0), late) == Breaker(2, Open, Some(1000), false, 0, map[]);
    var waited := late + [Elapse(1000)];
    var probed := waited + [Begin(2)];
    assert waited[..4] == late && probed[..5] == waited;
    assert hinted == [Begin(0), Begin(1), Fail(0, true, Some(60000))];
  }

  /** Nor is it honoured when a call that began earlier succeeds: the circuit closes at once. */
  lemma LateSuccessDropsHint(config: Config)
    requires config.failureThreshold == 1
    ensures var hinted := [Begin(0), Begin(1), Fail(0, true, Some(60000))];
      var after := hinted + [Succeed(1)];
      var started := after + [Begin(2)];
      && NextAll(config, Initial(0), hinted).openUntil == Some(60000)
      && 2 in NextAll(config, Initial(0), started).running && NextAll(config, Initial(0), started).clock == 0
  {
    var one, two := [Begin(0)], [Begin(0), Begin(1)];
    var hinted := two + [Fail(0, true, Some(60000))];
    var after := hinted + [Succeed(1)];
    var started := after + [Begin(2)];
    assert one[..0] == [] && two[..1] == one && hinted[..2] == two && after[..3] == hinted && started[..4] == after;
    assert NextAll(config, Initial(0), one) == Breaker(0, Closed, None, false, 0, map[0 := false]);
    assert NextAll(config, Initial(0), two) == Breaker(0, Closed, None, false, 0, map[0 := false, 1 := false]);
    assert NextAll(config, Initial(0), hinted) == Breaker(1, Open, Some(60000), false, 0, map[1 := false]);
    assert NextAll(config, Initial(0), after) == Breaker(0, Closed, None, false, 0, map[]);
    assert hinted == [Begin(0), Begin(1), Fail(0, true, Some(60000))];
  }

  // ------------------------------------------------------------------ the breaker as an object

  // ------------------------------------------------------------------ what the end of a call does

  /** The call is no longer running, and if it was the probe no probe is in flight. */
  predicate CallEnded(before: Breaker, after: Breaker, call: nat) {
    && after.running == before.running - {call} && after.clock == before.clock
    && (call in before.running && before.running[call] ==> !after.probeInFlight)
    && (call in before.running && !before.running[call] ==> after.probeInFlight == before.probeInFlight)
  }

  /** A success closes the circuit, whatever its state, and forgets every failure. */
  lemma SuccessClears(config: Config, breaker: Breaker, call: nat)
    requires BreakerOk(config, breaker) && call in breaker.running
    ensures var after := Next(config, breaker, Succeed(call));
      && CallEnded(breaker, after, call)
      && after.circuit.Closed? && after.failures == 0 && after.openUntil.None?
  {
  }

  /**
   A counted failure is one more in a row. It opens the circuit exactly when it is the probe's, comes with a time in the
   future, or is one too many; then the circuit reopens at that time, or after the configured pause.
   */
  lemma CountedFailureDecides(config: Config, breaker: Breaker, call: nat, hint: Option<int>)
    requires call in breaker.running
    ensures var after := Next(config, breaker, Fail(call, true, hint));
      var later := hint.Some? && hint.value > breaker.clock;
      && CallEnded(breaker, after, call) && after.failures == breaker.failures + 1
      && if breaker.running[call] || later || breaker.failures + 1 >= config.failureThreshold then
           && after.circuit.Open?
           && after.openUntil == Some(if later then hint.value else breaker.clock + config.openMs)
         else after.circuit == breaker.circuit && after.openUntil == breaker.openUntil
  {
  }

  /** Any other error says nothing about the provider: the probe's closes the circuit, others change nothing. */
  lemma UncountedFailureDecides(config: Config, breaker: Breaker, call: nat, hint: Option<int>)
    requires call in breaker.running
    ensures var after := Next(config, breaker, Fail(call, false, hint));
      && CallEnded(breaker, after, call)
      && if breaker.running[call] then after.circuit.Closed? && after.failures == 0 && after.openUntil.None?
         else after.circuit == breaker.circuit && after.failures == breaker.failures
              && after.openUntil == breaker.openUntil
  {
  }

  /** Counted failures since the last success, or since the last probe that ended without saying anything. */
  function FailuresInARow(config: Config, start: Breaker, steps: seq<Step>): nat {
    if |steps| == 0 then start.failures
    else
      var earlier := FailuresInARow(config, start, steps[..|steps| - 1]);
      var before := NextAll(config, start, steps[..|steps| - 1]);
      match steps[|steps| - 1]
      case Succeed(call) => if call in before.running then 0 else earlier
      case Fail(call, counted, _) =>
        if call !in before.running then earlier
        else if counted then earlier + 1
        else if before.running[call] then 0
        else earlier
      case _ => earlier
  }

  /** In every run the breaker counts exactly the failures in a row. */
  lemma {:induction false} CountsFailuresInARow(config: Config, start: Breaker, steps: seq<Step>)
    ensures NextAll(config, start, steps).failures == FailuresInARow(config, start, steps)
  {
    if |steps| > 0 {
      CountsFailuresInARow(config, start, steps[..|steps| - 1]);
    }
  }


  class ProviderBreaker {
    const config: Config
    var failures: nat
    var circuit: Circuit
    var openUntil: Option<int>
    var probeInFlight: bool
    var clock: int
    ghost var running: map<nat, bool>

    constructor (config: Config, now: int)
      requires config.failureThreshold > 0
      ensures this.config == config && View() == Initial(now) && BreakerOk(config, View())
    {
      this.config := config;
      failures, circuit, openUntil, probeInFlight := 0, Closed, None, false;
      clock, running := now, map[];
    }

    ghost function View(): Breaker
      reads this
    {
      Breaker(failures, circuit, openUntil, probeInFlight, clock, running)
    }

    method Refresh()
      modifies this
      ensures View() == Refreshed(old(View()))
    {
      if circuit.Open? && openUntil.Some? && clock >= openUntil.value {
        circuit, openUntil := HalfOpen, None;
      }
    }

    /** The part of `execute` before the operation runs; no answer means the call is refused. */
    method Start(ghost call: nat) returns (probe: Option<bool>)
      requires call !in running
      modifies this
      ensures View() == Next(config, old(View()), Begin(call))
      ensures probe.Some? <==> call in running
      ensures probe.Some? ==> running[call] == probe.value
    {
      Refresh();
      if circuit.Open? || (circuit.HalfOpen? && probeInFlight) {
        return None;
      }
      var isProbe := circuit.HalfOpen?;
      if isProbe {
        probeInFlight := true;
      }
      running := running[call := isProbe];
      return Some(isProbe);
    }

    /** The operation returned. */
    method Finish(ghost call: nat, probe: bool)
      requires call in running && running[call] == probe
      modifies this
      ensures View() == Next(config, old(View()), Succeed(call))
    {
      failures := 0;
      if !circuit.Closed? {
        circuit, openUntil := Closed, None;
      }
      if probe {
        probeInFlight := false;
      }
      running := running - {call};
    }

    /** The operation threw. */
    method FinishWithError(ghost call: nat, probe: bool, counted: bool, retryAfter: Option<int>)
      requires call in running && running[call] == probe
      modifies this
      ensures View() == Next(config, old(View()), Fail(call, counted, retryAfter))
    {
      if counted {
        failures := failures + 1;
        var hinted := if retryAfter.Some? && retryAfter.value > clock then retryAfter else None;
        if probe || hinted.Some? || failures >= config.failureThreshold {
          var cooldown := clock + config.openMs;
          circuit := Open;
          openUntil := Some(if hinted.Some? && hinted.value > cooldown then hinted.value
                            else if hinted.Some? then hinted.value
                            else cooldown);
        }
      } else if probe {
        failures := 0;
        circuit, openUntil := Closed, None;
      }
      if probe {
        probeInFlight := false;
      }
      running := running - {call};
    }
  }
}
