/** Required status checks of a base branch, evaluated against what a head commit reports. */
module RequiredChecks {
  import opened Wrappers

  datatype CheckKind = StatusContext | CheckRun

  datatype Requirement = Requirement(context: string, appId: Option<nat>, source: string)

  /** A reported check; `finished` means a completed run, or a status that is not pending. */
  datatype Report = Report(kind: CheckKind, name: string, appId: Option<nat>, status: string,
                           conclusion: Option<string>)

  datatype CheckState = Success | PendingCheck | MissingCheck | FailedCheck

  datatype Outcome = Passed | PendingChecks | Failed | NoPolicy

  datatype CheckObservation = CheckObservation(requirement: Requirement, state: CheckState,
                                               conclusions: seq<Option<string>>)

  function StateOf(report: Report): CheckState {
    var pending := if report.kind.StatusContext? then report.status == "pending" else report.status != "completed";
    if pending then PendingCheck
    else if report.conclusion == Some("success") then Success
    else FailedCheck
  }

  /** A requirement pinned to an app only matches runs of that app. */
  predicate Matches(requirement: Requirement, report: Report) {
    report.name == requirement.context && (requirement.appId.Some? ==> report.appId == requirement.appId)
  }

  /** Some matching report is in the given state. */
  predicate Reported(requirement: Requirement, reports: seq<Report>, state: CheckState) {
    exists i :: 0 <= i < |reports| && Matches(requirement, reports[i]) && StateOf(reports[i]) == state
  }

  /** At least one matching report, and every matching report an explicit success. */
  predicate Succeeds(requirement: Requirement, reports: seq<Report>) {
    && Reported(requirement, reports, Success)
    && !Reported(requirement, reports, FailedCheck) && !Reported(requirement, reports, PendingCheck)
  }

  /**
   What a policy means: it must require something; one failure of any required check fails it; it passes only when every
   required check succeeds; anything else is pending.
   */
  function Evaluation(policy: seq<Requirement>, reports: seq<Report>): Outcome {
    if policy == [] then NoPolicy
    else if SomeFails(policy, reports) then Failed
    else if AllSucceed(policy, reports) then Passed
    else PendingChecks
  }

  predicate SameRequirement(left: Requirement, right: Requirement) {
    left.context == right.context && left.appId == right.appId
  }

  /** Observes one requirement: any failure fails it, any pending report keeps it pending. */
  method ObserveRequirement(requirement: Requirement, reports: seq<Report>) returns (observation: CheckObservation)
    ensures observation.requirement == requirement
    ensures observation.state.FailedCheck? <==> Reported(requirement, reports, FailedCheck)
    ensures observation.state.Success? <==> Succeeds(requirement, reports)
    ensures observation.state.MissingCheck? <==> forall i :: 0 <= i < |reports| ==> !Matches(requirement, reports[i])
  {
    var conclusions := [];
    var failed, pending, matched := false, false, false;
    for i := 0 to |reports|
      invariant failed
                <==> exists k :: 0 <= k < i && Matches(requirement, reports[k]) && StateOf(reports[k]) == FailedCheck
      invariant pending
                <==> exists k :: 0 <= k < i && Matches(requirement, reports[k]) && StateOf(reports[k]) == PendingCheck
      invariant matched <==> exists k :: 0 <= k < i && Matches(requirement, reports[k])
    {
      if Matches(requirement, reports[i]) {
        matched := true;
        failed := failed || StateOf(reports[i]) == FailedCheck;
        pending := pending || StateOf(reports[i]) == PendingCheck;
        conclusions := conclusions + [reports[i].conclusion];
      }
    }
    var state := if !matched then MissingCheck
                 else if failed then FailedCheck
                 else if pending then PendingCheck
                 else Success;
    observation := CheckObservation(requirement, state, conclusions);
  }

  /** Some entry stands for `requirement`. */
  predicate Covers(entries: seq<Requirement>, requirement: Requirement) {
    exists entry :: entry in entries && SameRequirement(entry, requirement)
  }

  /** `required` denotes the same requirements as `policy`. */
  predicate Denotes(required: seq<Requirement>, policy: seq<Requirement>) {
    && (forall requirement :: requirement in policy ==> Covers(required, requirement))
    && (forall entry :: entry in required ==> entry in policy)
  }

  predicate NoRepeats(required: seq<Requirement>) {
    forall i, j :: 0 <= i < j < |required| ==> !SameRequirement(required[i], required[j])
  }

  /** Where the table keeps an entry with this context and app, or its length. */
  function Position(required: seq<Requirement>, entry: Requirement): (i: nat)
    ensures i <= |required| && (i < |required| ==> SameRequirement(required[i], entry))
    ensures forall k :: 0 <= k < i ==> !SameRequirement(required[k], entry)
  {
    if |required| == 0 then 0
    else
      var earlier := Position(required[..|required| - 1], entry);
      if earlier < |required| - 1 || SameRequirement(required[|required| - 1], entry) then earlier else |required|
  }

  /** Sets one entry of an insertion-ordered table keyed by context and app. */
  function Inserted(required: seq<Requirement>, entry: Requirement): seq<Requirement> {
    var i := Position(required, entry);
    if i < |required| then required[i := entry] else required + [entry]
  }

  lemma InsertedKeeps(required: seq<Requirement>, entry: Requirement)
    ensures var result := Inserted(required, entry);
      && entry in result
      && (forall other :: other in required ==> Covers(result, other))
      && (forall other :: other in result ==> other in required || other == entry)
      && (NoRepeats(required) ==> NoRepeats(result))
  {
    var result := Inserted(required, entry);
    assert result[Position(required, entry)] == entry;
    forall other | other in required ensures Covers(result, other) {
      var j :| 0 <= j < |required| && required[j] == other;
      assert result[j] in result && SameRequirement(result[j], other);
    }
  }

  lemma InsertedStaysDistinct(required: seq<Requirement>, entry: Requirement)
    requires NoRepeats(required)
    ensures NoRepeats(Inserted(required, entry))
  {
    InsertedKeeps(required, entry);
  }

  lemma InsertedDenotes(required: seq<Requirement>, policy: seq<Requirement>, entry: Requirement)
    requires Denotes(required, policy)
    ensures Denotes(Inserted(required, entry), policy + [entry])
  {
    var result := Inserted(required, entry);
    InsertedKeeps(required, entry);
    forall requirement | requirement in policy + [entry] ensures Covers(result, requirement) {
      if requirement in policy {
        var middle :| middle in required && SameRequirement(middle, requirement);
        var found :| found in result && SameRequirement(found, middle);
        assert SameRequirement(found, requirement);
      } else {
        assert SameRequirement(entry, requirement);
      }
    }
  }

  /**
   Requirements with one context and app count once; the last such entry of the policy is kept, at the first one's
   place.
   */
  method Distinct(policy: seq<Requirement>) returns (required: seq<Requirement>)
    ensures Denotes(required, policy) && NoRepeats(required)
  {
    required := [];
    for n := 0 to |policy|
      invariant Denotes(required, policy[..n]) && NoRepeats(required)
    {
      InsertedDenotes(required, policy[..n], policy[n]);
      InsertedStaysDistinct(required, policy[n]);
      assert policy[..n + 1] == policy[..n] + [policy[n]];
      required := Inserted(required, policy[n]);
    }
    assert policy[..|policy|] == policy;
  }

  predicate SomeFails(policy: seq<Requirement>, reports: seq<Report>) {
    exists requirement :: requirement in policy && Reported(requirement, reports, FailedCheck)
  }

  predicate AllSucceed(policy: seq<Requirement>, reports: seq<Report>) {
    forall requirement :: requirement in policy ==> Succeeds(requirement, reports)
  }

  method EvaluateDistinct(required: seq<Requirement>, reports: seq<Report>)
    returns (failed: bool, allSucceed: bool, checks: seq<CheckObservation>)
    ensures failed <==> SomeFails(required, reports)
    ensures allSucceed <==> AllSucceed(required, reports)
    ensures |checks| == |required| && forall k :: 0 <= k < |required| ==> checks[k].requirement == required[k]
  {
    failed, allSucceed, checks := false, true, [];
    for i := 0 to |required|
      invariant failed <==> SomeFails(required[..i], reports)
      invariant allSucceed <==> AllSucceed(required[..i], reports)
      invariant |checks| == i && forall k :: 0 <= k < i ==> checks[k].requirement == required[k]
    {
      var observation := ObserveRequirement(required[i], reports);
      assert required[..i + 1] == required[..i] + [required[i]];
      checks := checks + [observation];
      failed := failed || observation.state.FailedCheck?;
      allSucceed := allSucceed && observation.state.Success?;
    }
    assert required[..|required|] == required;
  }

  lemma DenotesEmpty(required: seq<Requirement>, policy: seq<Requirement>)
    requires Denotes(required, policy)
    ensures required == [] <==> policy == []
  {
    if policy != [] {
      assert Covers(required, policy[0]);
    }
    if required != [] {
      assert required[0] in policy;
    }
  }

  /** Evaluates a policy as the table of distinct requirements it denotes. */
  method EvaluateRequiredChecks(policy: seq<Requirement>, reports: seq<Report>)
    returns (outcome: Outcome, checks: seq<CheckObservation>)
    ensures outcome == Evaluation(policy, reports)
    ensures exists required ::
      && Denotes(required, policy) && |checks| == |required|
      && forall k :: 0 <= k < |required| ==> checks[k].requirement == required[k]
  {
    var required := Distinct(policy);
    DenotesEmpty(required, policy);
    SameDenotation(policy, required, reports);
    if required == [] {
      return NoPolicy, [];
    }
    var failed, allSucceed;
    failed, allSucceed, checks := EvaluateDistinct(required, reports);
    outcome := if failed then Failed else if allSucceed then Passed else PendingChecks;
  }

  lemma SameMeansSame(left: Requirement, right: Requirement, reports: seq<Report>, state: CheckState)
    requires SameRequirement(left, right)
    ensures Reported(left, reports, state) == Reported(right, reports, state)
  {
    assert forall i :: 0 <= i < |reports| ==> Matches(left, reports[i]) == Matches(right, reports[i]);
  }

  lemma SameSucceeds(left: Requirement, right: Requirement, reports: seq<Report>)
    requires SameRequirement(left, right)
    ensures Succeeds(left, reports) == Succeeds(right, reports)
  {
    SameMeansSame(left, right, reports, Success);
    SameMeansSame(left, right, reports, PendingCheck);
    SameMeansSame(left, right, reports, FailedCheck);
  }

  predicate SameVerdict(left: Requirement, right: Requirement, reports: seq<Report>) {
    && Reported(left, reports, FailedCheck) == Reported(right, reports, FailedCheck)
    && Succeeds(left, reports) == Succeeds(right, reports)
  }

  /** Counting equal requirements once changes neither failure nor success. */
  lemma SameDenotation(policy: seq<Requirement>, required: seq<Requirement>, reports: seq<Report>)
    requires Denotes(required, policy)
    ensures SomeFails(policy, reports) <==> SomeFails(required, reports)
    ensures AllSucceed(policy, reports) <==> AllSucceed(required, reports)
  {
    forall requirement | requirement in policy
      ensures exists entry :: entry in required && SameVerdict(entry, requirement, reports)
    {
      assert Covers(required, requirement);
      var entry :| entry in required && SameRequirement(entry, requirement);
      SameMeansSame(entry, requirement, reports, FailedCheck);
      SameSucceeds(entry, requirement, reports);
      assert SameVerdict(entry, requirement, reports);
    }
  }
}
