/**
 Observing delivered pull requests: the status of one repository, how required checks time out, and the decision over
 all repositories of a task.
 */
module Observation {
  import opened Wrappers
  import opened Domain
  import opened Commits
  import RequiredChecks

  datatype Relation = Ahead | IdenticalCommits | Behind | Diverged

  predicate Contains(relation: Relation) {
    relation.Ahead? || relation.IdenticalCommits?
  }

  /** What GitHub reports for one pull request at one moment. */
  datatype Facts = Facts(
    /** Still from the registered repository and the work unit's branch. */
    fromBranch: bool,
    base: string,
    head: Commit,
    /** The pull request head against the pushed commit. */
    pushedRelation: Relation,
    open: bool,
    merged: bool,
    mergeCommit: Option<Commit>,
    /** The base branch against the merge commit. */
    mergeRelation: Relation,
    conflicts: bool,
    policy: seq<RequiredChecks.Requirement>,
    reports: seq<RequiredChecks.Report>)

  /** A head, and when this head was first observed. */
  datatype Sighting = Sighting(head: Commit, firstObservedAt: int)

  datatype UnitDelivery = UnitBlocked | ChecksPending | ChecksPassed | MergeUnverified | UnitMerged(mergeCommit: Commit)

  datatype UnitRow = UnitRow(
    pushedCommit: Option<Commit>,
    pullRequestNumber: Option<nat>,
    state: TaskState,
    mergeCommit: Option<Commit>,
    sighting: Option<Sighting>)

  datatype Policy = Policy(base: string, timeoutMinutes: nat)

  predicate Delivered(row: UnitRow) {
    row.pushedCommit.Some? && row.pullRequestNumber.Some?
  }

  // ------------------------------------------------------------------ one repository

  function FirstObserved(row: UnitRow, head: Commit, now: int): int {
    if row.sighting.Some? && row.sighting.value.head == head then row.sighting.value.firstObservedAt else now
  }

  /** The sighting an observation leaves on the work unit. */
  function Sighted(row: UnitRow, facts: Facts, now: int): Option<Sighting> {
    if Delivered(row) then Some(Sighting(facts.head, FirstObserved(row, facts.head, now))) else None
  }

  predicate TimedOut(policy: Policy, row: UnitRow, facts: Facts, now: int) {
    now - FirstObserved(row, facts.head, now) > policy.timeoutMinutes * 60 * 1000
  }

  function Observe(policy: Policy, row: UnitRow, facts: Facts, now: int): UnitDelivery {
    if !Delivered(row) then UnitBlocked
    else if !facts.fromBranch || facts.base != policy.base then UnitBlocked
    else if facts.head != row.pushedCommit.value && !Contains(facts.pushedRelation) then UnitBlocked
    else if !facts.open && !facts.merged then UnitBlocked
    else if facts.merged then
      if facts.mergeCommit.None? then MergeUnverified
      else if Contains(facts.mergeRelation) then UnitMerged(facts.mergeCommit.value)
      else if TimedOut(policy, row, facts, now) then UnitBlocked
      else MergeUnverified
    else if facts.conflicts then UnitBlocked
    else
      match RequiredChecks.Evaluation(facts.policy, facts.reports)
      case NoPolicy => UnitBlocked
      case Failed => UnitBlocked
      case PendingChecks => if TimedOut(policy, row, facts, now) then UnitBlocked else ChecksPending
      case Passed => ChecksPassed
  }

  function UnitState(delivery: UnitDelivery): TaskState {
    match delivery
    case UnitBlocked => Blocked
    case ChecksPending => WaitingCi
    case ChecksPassed => ReadyForHumanReview
    case MergeUnverified => ReadyForHumanReview
    case UnitMerged(_) => Completed
  }

  /** The work unit once the observation is recorded. */
  function Recorded(policy: Policy, row: UnitRow, facts: Facts, now: int): UnitRow {
    var delivery := Observe(policy, row, facts, now);
    row.(state := UnitState(delivery),
         mergeCommit := if delivery.UnitMerged? then Some(delivery.mergeCommit) else None,
         sighting := Sighted(row, facts, now))
  }

  // ------------------------------------------------------------------ the required-check timeout

  datatype Look = Look(now: int, facts: Facts)

  /** A work unit after a series of observations of it. */
  function Watched(policy: Policy, row: UnitRow, looks: seq<Look>): UnitRow {
    if |looks| == 0 then row
    else
      var last := looks[|looks| - 1];
      Recorded(policy, Watched(policy, row, looks[..|looks| - 1]), last.facts, last.now)
  }

  /** Clocks never go back, and the row was not sighted in the future. */
  predicate InOrder(row: UnitRow, looks: seq<Look>) {
    && (forall i, j :: 0 <= i < j < |looks| ==> looks[i].now <= looks[j].now)
    && (forall i :: 0 <= i < |looks| && row.sighting.Some? ==> row.sighting.value.firstObservedAt <= looks[i].now)
  }

  lemma {:induction false} WatchedStaysDelivered(policy: Policy, row: UnitRow, looks: seq<Look>)
    ensures Watched(policy, row, looks).pushedCommit == row.pushedCommit
    ensures Watched(policy, row, looks).pullRequestNumber == row.pullRequestNumber
  {
    if |looks| > 0 {
      WatchedStaysDelivered(policy, row, looks[..|looks| - 1]);
    }
  }

  /** From look `i` on the head stood still, so it was first observed no later than that look. */
  lemma {:induction false} FirstSightingIsKept(policy: Policy, row: UnitRow, looks: seq<Look>, i: nat)
    requires Delivered(row) && InOrder(row, looks) && i < |looks|
    requires forall k :: i <= k < |looks| ==> looks[k].facts.head == looks[i].facts.head
    ensures var sighting := Watched(policy, row, looks).sighting;
      sighting.Some? && sighting.value.head == looks[i].facts.head && sighting.value.firstObservedAt <= looks[i].now
    decreases |looks|
  {
    var earlier := looks[..|looks| - 1];
    WatchedStaysDelivered(policy, row, earlier);
    if i < |earlier| {
      assert forall k :: i <= k < |earlier| ==> earlier[k] == looks[k];
      FirstSightingIsKept(policy, row, earlier, i);
    } else {
      PastSighting(policy, row, earlier, looks[i].now);
    }
  }

  /** Whatever sighting is on the row, it is not later than a clock that all looks precede. */
  lemma {:induction false} PastSighting(policy: Policy, row: UnitRow, looks: seq<Look>, now: int)
    requires row.sighting.Some? ==> row.sighting.value.firstObservedAt <= now
    requires forall k :: 0 <= k < |looks| ==> looks[k].now <= now
    ensures var sighting := Watched(policy, row, looks).sighting;
      sighting.Some? ==> sighting.value.firstObservedAt <= now
  {
    if |looks| > 0 {
      PastSighting(policy, row, looks[..|looks| - 1], now);
    }
  }

  /**
   For a head that stands still, no observation later than the timeout after its first sighting leaves required checks
   pending: the unit is blocked instead, or has moved on.
   */
  lemma PendingChecksTimeOut(policy: Policy, row: UnitRow, looks: seq<Look>, i: nat)
    requires Delivered(row) && InOrder(row, looks) && i + 1 < |looks|
    requires forall k :: i <= k < |looks| ==> looks[k].facts.head == looks[i].facts.head
    requires looks[|looks| - 1].now - looks[i].now > policy.timeoutMinutes * 60 * 1000
    ensures var last := looks[|looks| - 1];
      !Observe(policy, Watched(policy, row, looks[..|looks| - 1]), last.facts, last.now).ChecksPending?
    ensures Watched(policy, row, looks).state != WaitingCi
  {
    var earlier := looks[..|looks| - 1];
    assert forall k :: 0 <= k < |earlier| ==> earlier[k] == looks[k];
    FirstSightingIsKept(policy, row, earlier, i);
  }

  // ------------------------------------------------------------------ the decision

  /** How one pass of the handler ends. */
  datatype ObservationEnding =
    | ReadyForReview | ChecksRunningAgain | MergedEverywhere | DeliveryBlocked | KeepsWaiting(until: int)
    | ObservationInterrupted | ObservationThrew

  predicate AnyBlocked(deliveries: seq<UnitDelivery>) {
    exists i :: 0 <= i < |deliveries| && deliveries[i].UnitBlocked?
  }

  predicate AllMerged(deliveries: seq<UnitDelivery>) {
    forall i :: 0 <= i < |deliveries| ==> deliveries[i].UnitMerged?
  }

  predicate NonePending(deliveries: seq<UnitDelivery>) {
    forall i :: 0 <= i < |deliveries| ==> !deliveries[i].ChecksPending?
  }

  /** One pass over all statuses; `commented` is whether the milestone comment could be posted. */
  function Decide(state: TaskState, deliveries: seq<UnitDelivery>, commented: bool, retryAt: int,
                  pollAt: int): ObservationEnding {
    if AnyBlocked(deliveries) then DeliveryBlocked
    else if AllMerged(deliveries) then
      if state == WaitingCi then ReadyForReview else if commented then MergedEverywhere else KeepsWaiting(retryAt)
    else if NonePending(deliveries) then
      if state == ReadyForHumanReview then KeepsWaiting(pollAt)
      else if commented then ReadyForReview
      else KeepsWaiting(retryAt)
    else if state == ReadyForHumanReview then ChecksRunningAgain
    else KeepsWaiting(pollAt)
  }

  // ------------------------------------------------------------------ one pass

  /** What one unit's turn meets: an abort, a provider that fails, a lost lease, or facts. */
  datatype Turn = Aborted | Unavailable(retryAt: int) | ProviderRejected | LeaseGone | Seen(facts: Facts, now: int)

  function TurnAt(turns: seq<Turn>, i: nat): Turn {
    if i < |turns| then turns[i] else Aborted
  }

  /** The first of the turns up to `n` at which nothing could be observed, or `n`. */
  function StopsAt(turns: seq<Turn>, from: nat, n: nat): (stop: nat)
    requires from <= n
    ensures from <= stop <= n && (stop < n ==> !TurnAt(turns, stop).Seen?)
    ensures forall i :: from <= i < stop ==> TurnAt(turns, i).Seen?
    decreases n - from
  {
    if from == n || !TurnAt(turns, from).Seen? then from else StopsAt(turns, from + 1, n)
  }

  /** How a pass ends that stops early. */
  function StoppedBy(turn: Turn): ObservationEnding {
    match turn
    case Unavailable(retryAt) => KeepsWaiting(retryAt)
    case ProviderRejected => DeliveryBlocked
    case LeaseGone => ObservationThrew
    case _ => ObservationInterrupted
  }

  /** The unit was seen merged, from its branch into its base, with a merge commit its base contains. */
  predicate SeenMerged(policy: Policy, turn: Turn, commit: Commit) {
    && turn.Seen? && turn.facts.merged && turn.facts.mergeCommit == Some(commit) && Contains(turn.facts.mergeRelation)
    && turn.facts.fromBranch && turn.facts.base == policy.base
  }

  /** Whether a pass over all units changes the task's state, which records an attempt. */
  predicate Concludes(ending: ObservationEnding) {
    ending in {ReadyForReview, ChecksRunningAgain, MergedEverywhere, DeliveryBlocked}
  }
}
