/**
 What the observation of a delivered pull request says, in terms of what GitHub reports about it and its checks.
 */
module ObservationLaws {
  import opened Wrappers
  import opened Domain
  import opened Commits
  import opened Observation
  import RequiredChecks

  // ------------------------------------------------------------------ required checks as reported

  /** A report of the required check, from the required app if one is required. */
  predicate Concerns(report: RequiredChecks.Report, requirement: RequiredChecks.Requirement) {
    report.name == requirement.context && (requirement.appId.None? || report.appId == requirement.appId)
  }

  /** A status is over once it is no longer pending, a check run once it is completed. */
  predicate Over(report: RequiredChecks.Report) {
    if report.kind.StatusContext? then report.status != "pending" else report.status == "completed"
  }

  predicate SaysYes(report: RequiredChecks.Report) {
    Over(report) && report.conclusion == Some("success")
  }

  predicate SaysNo(report: RequiredChecks.Report) {
    Over(report) && report.conclusion != Some("success")
  }

  /** The required check was reported, and all its reports are explicit successes. */
  predicate Granted(requirement: RequiredChecks.Requirement, reports: seq<RequiredChecks.Report>) {
    && (exists i :: 0 <= i < |reports| && Concerns(reports[i], requirement))
    && (forall i :: 0 <= i < |reports| && Concerns(reports[i], requirement) ==> SaysYes(reports[i]))
  }

  predicate Refused(requirement: RequiredChecks.Requirement, reports: seq<RequiredChecks.Report>) {
    exists i :: 0 <= i < |reports| && Concerns(reports[i], requirement) && SaysNo(reports[i])
  }

  /** The base branch requires something, and everything it requires was granted. */
  predicate ChecksGranted(facts: Facts) {
    facts.policy != [] && forall i :: 0 <= i < |facts.policy| ==> Granted(facts.policy[i], facts.reports)
  }

  /** The base branch requires nothing, or something it requires was refused. */
  predicate ChecksRefused(facts: Facts) {
    facts.policy == [] || exists i :: 0 <= i < |facts.policy| && Refused(facts.policy[i], facts.reports)
  }

  lemma GrantedIsSuccess(requirement: RequiredChecks.Requirement, reports: seq<RequiredChecks.Report>)
    ensures Granted(requirement, reports) <==> RequiredChecks.Succeeds(requirement, reports)
    ensures Refused(requirement, reports)
       <==> RequiredChecks.Reported(requirement, reports, RequiredChecks.FailedCheck)
  {
    assert forall i :: 0 <= i < |reports| ==>
      Concerns(reports[i], requirement) == RequiredChecks.Matches(requirement, reports[i]);
    assert forall i :: 0 <= i < |reports| ==>
      && (SaysYes(reports[i]) <==> RequiredChecks.StateOf(reports[i]) == RequiredChecks.Success)
      && (SaysNo(reports[i]) <==> RequiredChecks.StateOf(reports[i]) == RequiredChecks.FailedCheck);
  }

  lemma ChecksMean(facts: Facts)
    ensures ChecksGranted(facts) <==> RequiredChecks.Evaluation(facts.policy, facts.reports).Passed?
    ensures ChecksRefused(facts) <==> RequiredChecks.Evaluation(facts.policy, facts.reports) in
                                      {RequiredChecks.Failed, RequiredChecks.NoPolicy}
  {
    hide Granted, Refused, RequiredChecks.Succeeds, RequiredChecks.Reported;
    var policy, reports := facts.policy, facts.reports;
    forall i | 0 <= i < |policy|
      ensures Granted(policy[i], reports) <==> RequiredChecks.Succeeds(policy[i], reports)
      ensures Refused(policy[i], reports)
         <==> RequiredChecks.Reported(policy[i], reports, RequiredChecks.FailedCheck)
    {
      GrantedIsSuccess(policy[i], reports);
    }
    assert RequiredChecks.AllSucceed(policy, reports)
      <==> forall i :: 0 <= i < |policy| ==> Granted(policy[i], reports);
    assert RequiredChecks.SomeFails(policy, reports)
      <==> exists i :: 0 <= i < |policy| && Refused(policy[i], reports);
    if ChecksGranted(facts) {
      forall i | 0 <= i < |policy| ensures !Refused(policy[i], reports) {
        NotBoth(policy[i], reports);
      }
    }
  }

  lemma NotBoth(requirement: RequiredChecks.Requirement, reports: seq<RequiredChecks.Report>)
    ensures !(Granted(requirement, reports) && Refused(requirement, reports))
  {
  }

  // ------------------------------------------------------------------ the verdict on one pull request

  /** Delivered, and still from the unit's branch, on the configured base, with the pushed commit in it. */
  predicate InPlace(policy: Policy, row: UnitRow, facts: Facts) {
    && row.pushedCommit.Some? && row.pullRequestNumber.Some?
    && facts.fromBranch && facts.base == policy.base
    && (facts.head == row.pushedCommit.value || facts.pushedRelation in {Ahead, IdenticalCommits})
  }

  /** In place, open, unmerged, and without conflicts. */
  predicate AwaitsMerge(policy: Policy, row: UnitRow, facts: Facts) {
    InPlace(policy, row, facts) && facts.open && !facts.merged && !facts.conflicts
  }

  /** This head was first seen more than the timeout ago. */
  predicate Overdue(policy: Policy, row: UnitRow, facts: Facts, now: int) {
    && row.sighting.Some? && row.sighting.value.head == facts.head
    && now - row.sighting.value.firstObservedAt > policy.timeoutMinutes * 60 * 1000
  }

  /**
   A pull request that awaits its merge has passed its checks exactly when something is required and all of it was
   granted. It is blocked when nothing is required, when something was refused, or when its checks are overdue;
   otherwise it waits.
   */
  lemma ChecksDecide(policy: Policy, row: UnitRow, facts: Facts, now: int)
    requires AwaitsMerge(policy, row, facts)
    ensures Observe(policy, row, facts, now).ChecksPassed? <==> ChecksGranted(facts)
    ensures Observe(policy, row, facts, now).UnitBlocked?
       <==> ChecksRefused(facts) || (!ChecksGranted(facts) && Overdue(policy, row, facts, now))
    ensures Observe(policy, row, facts, now).ChecksPending?
       <==> !ChecksRefused(facts) && !ChecksGranted(facts) && !Overdue(policy, row, facts, now)
  {
    ChecksMean(facts);
  }

  /**
   A pull request that has been merged counts as merged exactly when its merge commit is known and in the base branch;
   it is blocked only when a known merge commit stays out of the base for longer than the timeout.
   */
  lemma MergeDecides(policy: Policy, row: UnitRow, facts: Facts, now: int)
    requires InPlace(policy, row, facts) && facts.merged
    ensures Observe(policy, row, facts, now).UnitMerged?
       <==> facts.mergeCommit.Some? && facts.mergeRelation in {Ahead, IdenticalCommits}
    ensures Observe(policy, row, facts, now).UnitMerged?
            ==> facts.mergeCommit == Some(Observe(policy, row, facts, now).mergeCommit)
    ensures Observe(policy, row, facts, now).UnitBlocked?
       <==> facts.mergeCommit.Some? && facts.mergeRelation !in {Ahead, IdenticalCommits}
            && Overdue(policy, row, facts, now)
    ensures Observe(policy, row, facts, now) in {UnitBlocked, MergeUnverified}
            || Observe(policy, row, facts, now).UnitMerged?
  {
  }

  /** Anything else is blocked: not delivered, moved elsewhere, rewritten, closed, or in conflict. */
  lemma OtherwiseBlocked(policy: Policy, row: UnitRow, facts: Facts, now: int)
    requires !AwaitsMerge(policy, row, facts) && !(InPlace(policy, row, facts) && facts.merged)
    ensures Observe(policy, row, facts, now).UnitBlocked?
  {
  }

  /** What a verdict that lets a task go to review, or on to completion, says about the pull request. */
  lemma SettledMeans(policy: Policy, row: UnitRow, facts: Facts, now: int)
    requires var verdict := Observe(policy, row, facts, now);
      verdict.ChecksPassed? || verdict.MergeUnverified? || verdict.UnitMerged?
    ensures InPlace(policy, row, facts) && (facts.merged || (AwaitsMerge(policy, row, facts) && ChecksGranted(facts)))
  {
    if AwaitsMerge(policy, row, facts) {
      ChecksDecide(policy, row, facts, now);
    }
  }

  /**
   What is recorded: blocked rows are blocked, rows with pending checks wait for them, and a head keeps the time of its
   first sighting.
   */
  lemma RecordTells(policy: Policy, row: UnitRow, facts: Facts, now: int)
    requires AwaitsMerge(policy, row, facts)
    ensures var after := Recorded(policy, row, facts, now);
      && after.pushedCommit == row.pushedCommit && after.pullRequestNumber == row.pullRequestNumber
      && after.mergeCommit.None?
      && (after.state == ReadyForHumanReview <==> ChecksGranted(facts))
      && (after.state == Blocked
          <==> ChecksRefused(facts) || (!ChecksGranted(facts) && Overdue(policy, row, facts, now)))
      && after.sighting == (if row.sighting.Some? && row.sighting.value.head == facts.head then row.sighting
                            else Some(Sighting(facts.head, now)))
  {
    ChecksDecide(policy, row, facts, now);
    ChecksMean(facts);
  }

  // ------------------------------------------------------------------ the decision over all of them

  /**
   A pass from waiting for checks goes on to review exactly when no unit is blocked, none has pending checks, and the
   milestone could be announced unless all are merged already; one blocked unit blocks the whole task.
   */
  lemma WaitingPassDecides(deliveries: seq<UnitDelivery>, commented: bool, retryAt: int, pollAt: int)
    ensures var ending := Decide(WaitingCi, deliveries, commented, retryAt, pollAt);
      && (ending.DeliveryBlocked? <==> UnitBlocked in deliveries)
      && (ending.ReadyForReview?
          <==> UnitBlocked !in deliveries && ChecksPending !in deliveries && (commented || AllMerged(deliveries)))
      && (ending == KeepsWaiting(pollAt) || ending == KeepsWaiting(retryAt)
          || ending.DeliveryBlocked? || ending.ReadyForReview?)
      && (UnitBlocked !in deliveries && ChecksPending in deliveries ==> ending == KeepsWaiting(pollAt))
  {
  }

  /**
   A pass from human review completes the task exactly when every unit is merged and that could be announced, returns to
   the checks when some are pending again, is blocked by one blocked unit, and waits otherwise.
   */
  lemma ReviewPassDecides(deliveries: seq<UnitDelivery>, commented: bool, retryAt: int, pollAt: int)
    ensures var ending := Decide(ReadyForHumanReview, deliveries, commented, retryAt, pollAt);
      && (ending.DeliveryBlocked? <==> UnitBlocked in deliveries)
      && (ending.MergedEverywhere? <==> AllMerged(deliveries) && commented)
      && (ending.ChecksRunningAgain? <==> UnitBlocked !in deliveries && ChecksPending in deliveries)
      && (!ending.DeliveryBlocked? && !ending.MergedEverywhere? && !ending.ChecksRunningAgain? ==>
            ending == KeepsWaiting(if AllMerged(deliveries) then retryAt else pollAt))
  {
  }
}
