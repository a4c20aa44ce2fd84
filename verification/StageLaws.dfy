/**
 What a handler run decides and leaves behind, in terms of what it found and met: the advance it asks for, the
 checkpoints and the attempt numbers. Every law is about a whole undisturbed run; other people's commits change none of
 this.
 */
module StageLaws {
  import opened Wrappers
  import opened Domain
  import opened Commits
  import opened ExecutionStore
  import opened StagePlans
  import ExecutionPlansSafe
  import Tasks

  // ------------------------------------------------------------------ what a list of effects leaves

  /** The checkpoints and the attempt numbers of a store. */
  datatype Record = Record(checkpoints: Checkpoints, attempts: map<TaskState, Attempts>) {
    function AttemptsOf(stage: TaskState): Attempts {
      if stage in attempts then attempts[stage] else map[]
    }
  }

  function RecordOf(store: Store): Record {
    Record(store.checkpoints, store.attempts)
  }

  /** The record after a run that began with `found`: its own attempt is completed. */
  function Closing(found: Record, stage: TaskState, checkpoints: Checkpoints): Record {
    Record(checkpoints,
           found.attempts[stage := found.AttemptsOf(stage)[NextAttempt(found.AttemptsOf(stage)) := true]])
  }

  function Opening(found: Record, stage: TaskState): Record {
    Record(found.checkpoints,
           found.attempts[stage := found.AttemptsOf(stage)[NextAttempt(found.AttemptsOf(stage)) := false]])
  }

  /** An effect on worktrees, branches or the delivery record only. */
  predicate Quiet(effect: Effect) {
    || effect.Restore? || effect.RunSetup? || effect.RunAgent? || effect.ForeignMove? || effect.RunGate?
    || effect.MakeCommit? || effect.Push? || effect.RecordUnit?
  }

  predicate AllQuiet(effects: seq<Effect>) {
    forall i :: 0 <= i < |effects| ==> Quiet(effects[i])
  }

  lemma {:induction false} QuietKeepsRecord(store: Store, effects: seq<Effect>)
    requires AllQuiet(effects)
    ensures RecordOf(ApplyAll(store, effects)) == RecordOf(store)
  {
    if |effects| > 0 {
      QuietKeepsRecord(store, effects[..|effects| - 1]);
    }
  }

  /** A run up to its ending: quiet effects around the opening of its attempt. */
  lemma RunBegins(store: Store, stage: TaskState, first: seq<Effect>, second: seq<Effect>)
    requires AllQuiet(first) && AllQuiet(second)
    ensures RecordOf(ApplyAll(store, first + [StartAttempt(stage)] + second)) == Opening(RecordOf(store), stage)
  {
    hide NextAttempt;
    QuietKeepsRecord(store, first);
    ApplyNext(store, first, StartAttempt(stage));
    ApplyJoined(store, first + [StartAttempt(stage)], second);
    QuietKeepsRecord(ApplyAll(store, first + [StartAttempt(stage)]), second);
  }

  /** What the last effects of a run do to the record. */
  function Noted(record: Record, effect: Effect): Record {
    match effect
    case CompleteAttempt(stage, attempt) =>
      record.(attempts := record.attempts[stage := record.AttemptsOf(stage)[attempt := true]])
    case SaveAnalysis(digest) => record.(checkpoints := record.checkpoints.(analysis := Some(digest)))
    case SaveSetup(heads) => record.(checkpoints := record.checkpoints.(setup := Some(heads)))
    case SaveImplementation(implementation) =>
      record.(checkpoints := record.checkpoints.(implementation := Some(implementation)))
    case SaveRejection(number) => record.(checkpoints := record.checkpoints.(rejected := Some(number)))
    case SaveQuality(heads) => record.(checkpoints := record.checkpoints.(qualityPassed := Some(heads)))
    case SaveFixRequest(request) => record.(checkpoints := record.checkpoints.(fixRequest := Some(request)))
    case SaveFixApplied(id) => record.(checkpoints := record.checkpoints.(fixApplied := Some(id)))
    case SaveReview(heads) => record.(checkpoints := record.checkpoints.(reviewApproved := Some(heads)))
    case _ => record
  }

  lemma NotedIsApplied(store: Store, effect: Effect)
    requires !effect.StartAttempt?
    ensures RecordOf(Apply(store, effect)) == Noted(RecordOf(store), effect)
  {
  }

  function NotedAll(record: Record, effects: seq<Effect>): Record
    decreases |effects|
  {
    if |effects| == 0 then record else NotedAll(Noted(record, effects[0]), effects[1..])
  }

  lemma {:induction false} NotedAllIsApplied(store: Store, effects: seq<Effect>)
    requires forall i :: 0 <= i < |effects| ==> !effects[i].StartAttempt?
    ensures RecordOf(ApplyAll(store, effects)) == NotedAll(RecordOf(store), effects)
    decreases |effects|
  {
    hide Apply, Noted;
    if |effects| > 0 {
      assert effects == [effects[0]] + effects[1..] && [effects[0]][..0] == [];
      ApplyJoined(store, [effects[0]], effects[1..]);
      NotedIsApplied(store, effects[0]);
      NotedAllIsApplied(Apply(store, effects[0]), effects[1..]);
    }
  }

  /** A whole run: what it began with, and what its last effects note. */
  lemma RunEnds(store: Store, stage: TaskState, first: seq<Effect>, second: seq<Effect>, ending: seq<Effect>)
    requires AllQuiet(first) && AllQuiet(second)
    requires forall i :: 0 <= i < |ending| ==> !ending[i].StartAttempt?
    ensures RecordOf(ApplyAll(store, first + [StartAttempt(stage)] + second + ending))
         == NotedAll(Opening(RecordOf(store), stage), ending)
  {
    RunBegins(store, stage, first, second);
    ApplyJoined(store, first + [StartAttempt(stage)] + second, ending);
    NotedAllIsApplied(ApplyAll(store, first + [StartAttempt(stage)] + second), ending);
  }

  lemma NotedFirst(record: Record, a: Effect, rest: seq<Effect>)
    ensures NotedAll(record, [a] + rest) == NotedAll(Noted(record, a), rest)
  {
    assert ([a] + rest)[1..] == rest;
  }

  /** The short endings there are, once noted. */
  lemma EndingsNoted(record: Record, a: Effect, b: Effect, c: Effect, d: Effect)
    ensures NotedAll(record, [a]) == Noted(record, a)
    ensures NotedAll(record, [a, b]) == Noted(Noted(record, a), b)
    ensures NotedAll(record, [a, b, c]) == Noted(Noted(Noted(record, a), b), c)
    ensures NotedAll(record, [a, b, c, d]) == Noted(Noted(Noted(Noted(record, a), b), c), d)
  {
    hide Noted;
    var one := Noted(record, a);
    var two := Noted(one, b);
    var three := Noted(two, c);
    assert [a] == [a] + [] && [a, b] == [a] + [b] && [a, b, c] == [a] + [b, c] && [a, b, c, d] == [a] + [b, c, d];
    assert [b] == [b] + [] && [b, c] == [b] + [c] && [b, c, d] == [b] + [c, d];
    assert [c] == [c] + [] && [c, d] == [c] + [d] && [d] == [d] + [];
    NotedFirst(record, a, []);
    NotedFirst(record, a, [b]);
    NotedFirst(record, a, [b, c]);
    NotedFirst(record, a, [b, c, d]);
    NotedFirst(one, b, []);
    NotedFirst(one, b, [c]);
    NotedFirst(one, b, [c, d]);
    NotedFirst(two, c, []);
    NotedFirst(two, c, [d]);
    NotedFirst(three, d, []);
  }

  lemma ClosesWhatIsOpen(found: Record, stage: TaskState)
    ensures Noted(Opening(found, stage), CompleteAttempt(stage, NextAttempt(found.AttemptsOf(stage))))
         == Closing(found, stage, found.checkpoints)
  {
    hide NextAttempt;
    var n := NextAttempt(found.AttemptsOf(stage));
    assert found.AttemptsOf(stage)[n := false][n := true] == found.AttemptsOf(stage)[n := true];
    assert found.attempts[stage := found.AttemptsOf(stage)[n := false]][stage := found.AttemptsOf(stage)[n := true]]
        == found.attempts[stage := found.AttemptsOf(stage)[n := true]];
  }

  // ------------------------------------------------------------------ quality gates

  /** What the record of the store is once the run has ended undisturbed. */
  function Left(limits: Limits, task: Tasks.Task, store: Store, input: StageInput): Record
    requires store.Prepared(limits.units)
  {
    RecordOf(ApplyAll(store, StagePlan(limits, task, store, input).effects))
  }

  /** The gates of all units ran to an end. */
  predicate GatesCompleted(input: StageInput, units: seq<Repository>)
    requires input.TestInput?
  {
    forall i :: 0 <= i < |units| ==> Report(input, i) in {GatePassed, GateFailed}
  }

  lemma {:induction false} CompletedNeverStops(input: StageInput, units: seq<Repository>, from: nat)
    requires input.TestInput? && GatesCompleted(input, units) && from <= |units|
    ensures GatesStopAt(input, units, from) == |units|
    decreases |units| - from
  {
    if from < |units| {
      CompletedNeverStops(input, units, from + 1);
    }
  }

  lemma TestingShape(limits: Limits, task: Tasks.Task, store: Store, input: StageInput)
    requires store.Prepared(limits.units) && task.state == Testing && input.TestInput?
    requires !input.loadFails && store.checkpoints.qualityPassed != Some(HeadsOf(store, limits.units))
    ensures var ending := TestingEnding(limits, task, input, HeadsOf(store, limits.units),
                                        NextAttempt(store.AttemptsOf(Testing)));
      && StagePlan(limits, task, store, input).outcome == ending.outcome
      && Left(limits, task, store, input) == NotedAll(Opening(RecordOf(store), Testing), ending.effects)
  {
    hide TestingEnding, NextAttempt, ApplyAll, NotedAll;
    var gates := GateEffects(input, UnitsRun(input, limits.units));
    var ending := TestingEnding(limits, task, input, HeadsOf(store, limits.units),
                                NextAttempt(store.AttemptsOf(Testing)));
    TestingEndingStartsNothing(limits, task, input, HeadsOf(store, limits.units),
                               NextAttempt(store.AttemptsOf(Testing)));
    RunEnds(store, Testing, [Restore], gates + [Restore], ending.effects);
    assert StagePlan(limits, task, store, input).effects
        == [Restore] + [StartAttempt(Testing)] + (gates + [Restore]) + ending.effects;
  }

  lemma TestingEndingStartsNothing(limits: Limits, task: Tasks.Task, input: StageInput, heads: Heads, attempt: nat)
    requires input.TestInput?
    ensures var ending := TestingEnding(limits, task, input, heads, attempt).effects;
      forall i :: 0 <= i < |ending| ==> !ending[i].StartAttempt?
  {
  }

  /**
   A testing run whose gates all ran goes on to review exactly when all of them passed, and then the pass of the heads
   it read is recorded. When one failed, it asks for a fix of those heads under its own attempt number and spends a
   quality fix attempt while one is left; with none left the task fails and nothing is requested.
   */
  lemma FailedGatesAskForAFix(limits: Limits, task: Tasks.Task, store: Store, input: StageInput)
    requires store.Prepared(limits.units) && task.state == Testing && input.TestInput?
    requires !input.loadFails && store.checkpoints.qualityPassed != Some(HeadsOf(store, limits.units))
    requires GatesCompleted(input, limits.units)
    ensures var found, heads := RecordOf(store), HeadsOf(store, limits.units);
      var attempt := NextAttempt(store.AttemptsOf(Testing));
      var outcome, left := StagePlan(limits, task, store, input).outcome, Left(limits, task, store, input);
      var failed := exists i :: 0 <= i < |limits.units| && Report(input, i) == GateFailed;
      if !failed then
        && outcome == Advance(Reviewing, None, false)
        && left == Closing(found, Testing, found.checkpoints.(qualityPassed := Some(heads)))
      else if task.qualityFixAttempts < limits.maxQualityFixAttempts then
        && outcome == Advance(Fixing, Some(QualityFixAttempts), false)
        && left == Closing(found, Testing,
             found.checkpoints.(fixRequest := Some(FixRequest(QualityRequest(attempt), heads))))
      else
        outcome == Advance(Failed, None, false) && left == Closing(found, Testing, found.checkpoints)
  {
    hide NextAttempt, ApplyAll, StagePlan, NotedAll, Opening;
    var found, heads := RecordOf(store), HeadsOf(store, limits.units);
    var attempt := NextAttempt(store.AttemptsOf(Testing));
    CompletedNeverStops(input, limits.units, 0);
    TestingShape(limits, task, store, input);
    ClosesWhatIsOpen(found, Testing);
    var complete := CompleteAttempt(Testing, attempt);
    EndingsNoted(Opening(found, Testing), complete, SaveFixRequest(FixRequest(QualityRequest(attempt), heads)),
                 Restore, Restore);
    EndingsNoted(Opening(found, Testing), SaveQuality(heads), complete, Restore, Restore);
  }

  /** A gate that cannot run ends the run at once: an abort only interrupts it, anything else needs an operator. */
  lemma GatesThatCannotRun(limits: Limits, task: Tasks.Task, store: Store, input: StageInput, k: nat)
    requires store.Prepared(limits.units) && task.state == Testing && input.TestInput?
    requires !input.loadFails && store.checkpoints.qualityPassed != Some(HeadsOf(store, limits.units))
    requires k < |limits.units| && Report(input, k) in {GateAborted, GateInfrastructure}
    requires GatesCompleted(input, limits.units[..k])
    ensures StagePlan(limits, task, store, input).outcome
         == if Report(input, k) == GateAborted then Interrupted else Advance(Blocked, None, true)
    ensures Left(limits, task, store, input) == Closing(RecordOf(store), Testing, store.checkpoints)
  {
    hide NextAttempt, ApplyAll, StagePlan, NotedAll, Opening;
    StopsThere(input, limits.units, 0, k);
    TestingShape(limits, task, store, input);
    ClosesWhatIsOpen(RecordOf(store), Testing);
    var complete := CompleteAttempt(Testing, NextAttempt(store.AttemptsOf(Testing)));
    EndingsNoted(Opening(RecordOf(store), Testing), complete, Restore, Restore, Restore);
  }

  lemma {:induction false} StopsThere(input: StageInput, units: seq<Repository>, from: nat, k: nat)
    requires input.TestInput? && from <= k < |units| && GatesCompleted(input, units[..k])
    requires Report(input, k) in {GateAborted, GateInfrastructure}
    ensures GatesStopAt(input, units, from) == k
    decreases k - from
  {
    if from < k {
      assert units[..k][from] == units[from];
      StopsThere(input, units, from + 1, k);
    }
  }

  /** Commits that have passed already go on to review without running the gates again. */
  lemma PassedCommitsAreNotTestedAgain(limits: Limits, task: Tasks.Task, store: Store, input: StageInput)
    requires store.Prepared(limits.units) && task.state == Testing && input.TestInput?
    requires input.loadFails || store.checkpoints.qualityPassed == Some(HeadsOf(store, limits.units))
    ensures StagePlan(limits, task, store, input)
         == Plan([], if input.loadFails then Threw else Advance(Reviewing, None, false))
  {
  }

  // ------------------------------------------------------------------ agents

  /** How a stage ends whose agent was limited or cancelled; everything else is the stage's own business. */
  predicate AgentStops(result: AgentResult, outcome: StageOutcome) {
    match result
    case UsageLimited(retryAfter) => outcome == PauseLimit(UsageLimit, retryAfter)
    case RateLimited(until) => outcome == PauseLimit(RateLimit, Some(until))
    case AgentCancelled => outcome == Interrupted
    case _ => false
  }

  predicate Stopping(result: AgentResult) {
    result.UsageLimited? || result.RateLimited? || result.AgentCancelled?
  }

  // ------------------------------------------------------------------ review

  /** Both checkpoints and the plan are there for the heads the run read. */
  predicate ReviewDue(limits: Limits, store: Store, input: StageInput)
    requires store.Prepared(limits.units) && input.ReviewInput?
  {
    var heads := HeadsOf(store, limits.units);
    && !input.loadFails && store.checkpoints.reviewApproved != Some(heads)
    && store.checkpoints.qualityPassed == Some(heads) && store.checkpoints.analysis.Some?
  }

  lemma ReviewShape(limits: Limits, task: Tasks.Task, store: Store, input: StageInput)
    requires store.Prepared(limits.units) && task.state == Reviewing && input.ReviewInput?
    requires ReviewDue(limits, store, input)
    ensures var ending := ReviewEnding(limits, task, input, HeadsOf(store, limits.units),
                                       NextAttempt(store.AttemptsOf(Reviewing)));
      && StagePlan(limits, task, store, input).outcome == ending.outcome
      && Left(limits, task, store, input) == NotedAll(Opening(RecordOf(store), Reviewing), ending.effects)
  {
    hide ReviewEnding, NextAttempt, ApplyAll, NotedAll;
    var ending := ReviewEnding(limits, task, input, HeadsOf(store, limits.units),
                               NextAttempt(store.AttemptsOf(Reviewing)));
    ReviewEndingStartsNothing(limits, task, input, HeadsOf(store, limits.units),
                              NextAttempt(store.AttemptsOf(Reviewing)));
    var agent := ReaderEffects(limits.units, Reviewing, input.wrote)[1..];
    RunEnds(store, Reviewing, [], agent, ending.effects);
    assert StagePlan(limits, task, store, input).effects == [] + [StartAttempt(Reviewing)] + agent + ending.effects;
  }

  lemma ReviewEndingStartsNothing(limits: Limits, task: Tasks.Task, input: StageInput, heads: Heads, attempt: nat)
    requires input.ReviewInput?
    ensures var ending := ReviewEnding(limits, task, input, heads, attempt).effects;
      forall i :: 0 <= i < |ending| ==> !ending[i].StartAttempt?
  {
  }

  /**
   A review that changed nothing and answered properly approves the heads it read exactly when its verdict is an
   approval without blocking findings. A rejection goes to an operator. Anything else asks for a fix of those heads
   under the review's own attempt number and spends a review cycle while one is left; with none left the task fails.
   */
  lemma VerdictDecides(limits: Limits, task: Tasks.Task, store: Store, input: StageInput)
    requires store.Prepared(limits.units) && task.state == Reviewing && input.ReviewInput?
    requires ReviewDue(limits, store, input)
    requires !input.wrote && !input.moved && input.result.AgentDone? && !input.problems
    ensures var found, heads := RecordOf(store), HeadsOf(store, limits.units);
      var attempt := NextAttempt(store.AttemptsOf(Reviewing));
      var outcome, left := StagePlan(limits, task, store, input).outcome, Left(limits, task, store, input);
      if input.verdict == Approve && !input.blockingFinding then
        && outcome == Advance(if limits.deliver then PrCreated else Blocked, None, false)
        && left == Closing(found, Reviewing, found.checkpoints.(reviewApproved := Some(heads)))
      else if input.verdict == Reject then
        outcome == Advance(Blocked, None, true) && left == Closing(found, Reviewing, found.checkpoints)
      else if task.reviewAttempts < limits.maxReviewCycles then
        && outcome == Advance(Fixing, Some(ReviewAttempts), false)
        && left == Closing(found, Reviewing,
             found.checkpoints.(fixRequest := Some(FixRequest(ReviewRequest(attempt), heads))))
      else
        outcome == Advance(Failed, None, false) && left == Closing(found, Reviewing, found.checkpoints)
  {
    hide NextAttempt, ApplyAll, StagePlan, NotedAll, Opening;
    var found, heads := RecordOf(store), HeadsOf(store, limits.units);
    var attempt := NextAttempt(store.AttemptsOf(Reviewing));
    ReviewShape(limits, task, store, input);
    ClosesWhatIsOpen(found, Reviewing);
    var complete := CompleteAttempt(Reviewing, attempt);
    EndingsNoted(Opening(found, Reviewing), complete, SaveFixRequest(FixRequest(ReviewRequest(attempt), heads)),
                 Restore, Restore);
    EndingsNoted(Opening(found, Reviewing), SaveReview(heads), complete, Restore, Restore);
  }

  /** A review that wrote or moved something, was stopped, or gave no usable answer changes no checkpoint. */
  lemma SpoiltReviewSavesNothing(limits: Limits, task: Tasks.Task, store: Store, input: StageInput)
    requires store.Prepared(limits.units) && task.state == Reviewing && input.ReviewInput?
    requires ReviewDue(limits, store, input)
    requires input.wrote || input.moved || !input.result.AgentDone? || input.problems
    ensures Left(limits, task, store, input) == Closing(RecordOf(store), Reviewing, store.checkpoints)
    ensures var outcome := StagePlan(limits, task, store, input).outcome;
      if !input.wrote && !input.moved && Stopping(input.result) then AgentStops(input.result, outcome)
      else outcome == Advance(Blocked, None, true)
  {
    hide NextAttempt, ApplyAll, StagePlan, NotedAll, Opening;
    ReviewShape(limits, task, store, input);
    ClosesWhatIsOpen(RecordOf(store), Reviewing);
    var complete := CompleteAttempt(Reviewing, NextAttempt(store.AttemptsOf(Reviewing)));
    EndingsNoted(Opening(RecordOf(store), Reviewing), complete, Restore, Restore, Restore);
  }

  /** Without a reviewer: an approval of these heads stands, and heads that have not passed their gates are refused. */
  lemma ReviewNotDue(limits: Limits, task: Tasks.Task, store: Store, input: StageInput)
    requires store.Prepared(limits.units) && task.state == Reviewing && input.ReviewInput?
    requires !ReviewDue(limits, store, input)
    ensures var heads := HeadsOf(store, limits.units);
      StagePlan(limits, task, store, input) == Plan([],
        if input.loadFails then Threw
        else if store.checkpoints.reviewApproved == Some(heads) then
          Advance(if limits.deliver then PrCreated else Blocked, None, false)
        else if store.checkpoints.qualityPassed != Some(heads) then Advance(Blocked, None, true)
        else Threw)
  {
  }

  // ------------------------------------------------------------------ analysis and setup

  lemma AnalysisShape(limits: Limits, task: Tasks.Task, store: Store, input: StageInput)
    requires store.Prepared(limits.units) && task.state == Analyzing && input.AnalysisInput?
    requires input.preparation.WorkspacesReady? && !input.loadFails
    requires store.checkpoints.analysis != Some(input.digest)
    ensures var ending := AnalysisEnding(input, NextAttempt(store.AttemptsOf(Analyzing)));
      && StagePlan(limits, task, store, input).outcome == ending.outcome
      && Left(limits, task, store, input) == NotedAll(Opening(RecordOf(store), Analyzing), ending.effects)
  {
    hide NextAttempt, ApplyAll, NotedAll;
    var ending := AnalysisEnding(input, NextAttempt(store.AttemptsOf(Analyzing)));
    var agent := ReaderEffects(limits.units, Analyzing, input.wrote)[1..];
    RunEnds(store, Analyzing, [], agent, ending.effects);
    assert StagePlan(limits, task, store, input).effects == [] + [StartAttempt(Analyzing)] + agent + ending.effects;
  }

  /**
   An analysis is accepted, and remembered for the contract it was made for, exactly when its agent changed nothing and
   answered with a proper plan that needs no clarification; every other answer is left to an operator.
   */
  lemma AnalysisDecides(limits: Limits, task: Tasks.Task, store: Store, input: StageInput)
    requires store.Prepared(limits.units) && task.state == Analyzing && input.AnalysisInput?
    requires input.preparation.WorkspacesReady? && !input.loadFails
    requires store.checkpoints.analysis != Some(input.digest)
    ensures var found := RecordOf(store);
      var outcome, left := StagePlan(limits, task, store, input).outcome, Left(limits, task, store, input);
      if !input.wrote && !input.moved && input.result.AgentDone? && !input.problems && !input.clarification then
        && outcome == Advance(Ready, None, false)
        && left == Closing(found, Analyzing, found.checkpoints.(analysis := Some(input.digest)))
      else
        && left == Closing(found, Analyzing, found.checkpoints)
        && if !input.wrote && !input.moved && Stopping(input.result) then AgentStops(input.result, outcome)
           else outcome == Advance(Blocked, None, true)
  {
    hide NextAttempt, ApplyAll, StagePlan, NotedAll, Opening;
    AnalysisShape(limits, task, store, input);
    ClosesWhatIsOpen(RecordOf(store), Analyzing);
    var complete := CompleteAttempt(Analyzing, NextAttempt(store.AttemptsOf(Analyzing)));
    EndingsNoted(Opening(RecordOf(store), Analyzing), complete, Restore, Restore, Restore);
    EndingsNoted(Opening(RecordOf(store), Analyzing), SaveAnalysis(input.digest), complete, Restore, Restore);
  }

  /** Without an analyzer: unprepared workspaces decide, and an analysis of the same contract is used again. */
  lemma AnalysisNotDue(limits: Limits, task: Tasks.Task, store: Store, input: StageInput)
    requires store.Prepared(limits.units) && task.state == Analyzing && input.AnalysisInput?
    requires input.preparation.WorkspacesReady? ==>
               input.loadFails || store.checkpoints.analysis == Some(input.digest)
    ensures var plan := StagePlan(limits, task, store, input);
      && plan.effects == []
      && (match input.preparation
          case RemoteDown(retryAt) => plan.outcome == PauseLimit(RemoteUnavailable, Some(retryAt))
          case PreparationInterrupted => plan.outcome == Interrupted
          case PreparationThrew => plan.outcome == Threw
          case WorkspacesReady => plan.outcome == if input.loadFails then Threw else Advance(Ready, None, false))
  {
  }

  lemma SetupShape(limits: Limits, task: Tasks.Task, store: Store, input: StageInput)
    requires store.Prepared(limits.units) && task.state == Ready && input.ReadyInput?
    requires !input.loadFails && input.needsSetup && store.checkpoints.setup != Some(HeadsOf(store, limits.units))
    ensures var ending := SetupEnding(input, HeadsOf(store, limits.units), NextAttempt(store.AttemptsOf(Ready)));
      && StagePlan(limits, task, store, input).outcome == ending.outcome
      && Left(limits, task, store, input) == NotedAll(Opening(RecordOf(store), Ready), ending.effects)
  {
    hide NextAttempt, ApplyAll, NotedAll;
    var ending := SetupEnding(input, HeadsOf(store, limits.units), NextAttempt(store.AttemptsOf(Ready)));
    var setup := [RunSetup(Within(limits.units, input.touched))];
    RunEnds(store, Ready, [], setup, ending.effects);
    assert StagePlan(limits, task, store, input).effects == [] + [StartAttempt(Ready)] + setup + ending.effects;
  }

  /**
   A ready task goes on to implementation exactly when no setup is needed, or it has been done for these heads, or it
   runs through now and is remembered for them; a failed setup needs an operator.
   */
  lemma SetupDecides(limits: Limits, task: Tasks.Task, store: Store, input: StageInput)
    requires store.Prepared(limits.units) && task.state == Ready && input.ReadyInput?
    ensures var found, heads := RecordOf(store), HeadsOf(store, limits.units);
      var outcome, left := StagePlan(limits, task, store, input).outcome, Left(limits, task, store, input);
      if input.loadFails then outcome == Threw && left == found
      else if !input.needsSetup || store.checkpoints.setup == Some(heads) then
        outcome == Advance(Implementing, None, false) && left == found
      else if input.aborted then outcome == Interrupted && left == Closing(found, Ready, found.checkpoints)
      else if !input.setupPassed then
        outcome == Advance(Blocked, None, true) && left == Closing(found, Ready, found.checkpoints)
      else
        && outcome == Advance(Implementing, None, false)
        && left == Closing(found, Ready, found.checkpoints.(setup := Some(heads)))
  {
    hide NextAttempt, NotedAll, Opening;
    if !input.loadFails && input.needsSetup && store.checkpoints.setup != Some(HeadsOf(store, limits.units)) {
      hide ApplyAll, StagePlan;
      SetupShape(limits, task, store, input);
      ClosesWhatIsOpen(RecordOf(store), Ready);
      var complete := CompleteAttempt(Ready, NextAttempt(store.AttemptsOf(Ready)));
      EndingsNoted(Opening(RecordOf(store), Ready), complete, Restore, Restore, Restore);
      var save := SaveSetup(HeadsOf(store, limits.units));
      EndingsNoted(Opening(RecordOf(store), Ready), Restore, save, complete, Restore);
    }
  }

  // ------------------------------------------------------------------ implementation and fixes

  /** A write-enabled run opens its attempt on restored worktrees; `ending` is what follows its agent. */
  lemma WorkShape(units: seq<Repository>, store: Store, stage: TaskState, input: StageInput, ending: seq<Effect>)
    requires input.WorkInput? && forall i :: 0 <= i < |ending| ==> !ending[i].StartAttempt?
    ensures RecordOf(ApplyAll(store, WorkerEffects(units, stage, input) + ending))
         == NotedAll(Opening(RecordOf(store), stage), ending)
  {
    hide ApplyAll, NotedAll, NextAttempt;
    var agent := [RunAgent(true, Within(units, input.touched))];
    RunEnds(store, stage, [Restore], agent, ending);
    assert WorkerEffects(units, stage, input) + ending == [Restore] + [StartAttempt(stage)] + agent + ending;
  }

  lemma {:induction false} QuietNotesNothing(record: Record, quiet: seq<Effect>, rest: seq<Effect>)
    requires AllQuiet(quiet)
    ensures NotedAll(record, quiet + rest) == NotedAll(record, rest)
    decreases |quiet|
  {
    if |quiet| == 0 {
      assert quiet + rest == rest;
    } else {
      assert quiet + rest == [quiet[0]] + (quiet[1..] + rest);
      NotedFirst(record, quiet[0], quiet[1..] + rest);
      QuietNotesNothing(record, quiet[1..], rest);
    }
  }

  lemma {:induction false} CommitsAreQuiet(units: seq<Repository>, changed: set<Repository>, origin: Origin, next: nat)
    ensures AllQuiet(CommitEffects(units, changed, origin, next))
  {
    if |units| > 0 {
      CommitsAreQuiet(units[..|units| - 1], changed, origin, next);
    }
  }

  /** The agent finished, the heads stand, and the inspected changes pass the policy. */
  predicate ChangesAccepted(units: seq<Repository>, input: StageInput, everyUnit: bool)
    requires input.WorkInput?
  {
    && input.result.AgentDone? && !input.moved && !input.violation
    && (exists i :: 0 <= i < |units| && units[i] in input.changed)
    && (everyUnit ==> forall i :: 0 <= i < |units| ==> units[i] in input.changed)
  }

  /** The agent failed to answer, or its changes violate the policy. */
  predicate ChangesRejected(units: seq<Repository>, input: StageInput, everyUnit: bool)
    requires input.WorkInput?
  {
    || input.result in {InvalidOutput, TimedOut, RunnerFailed}
    || (input.result.AgentDone? && !input.moved && !ChangesAccepted(units, input, everyUnit))
  }

  /** Each changed unit has one more commit, of this origin; the others stand. */
  predicate OneCommitEach(units: seq<Repository>, changed: set<Repository>, origin: Origin, before: Store,
                          after: Store)
  {
    && after.branches.Keys == before.branches.Keys
    && forall unit :: unit in before.branches ==> Extended(before.branches[unit], after.branches[unit],
                                                           unit in units && unit in changed, origin)
  }

  predicate Extended(before: seq<Commit>, after: seq<Commit>, committed: bool, origin: Origin) {
    if committed then |after| == |before| + 1 && before <= after && after[|before|].origin == origin
    else after == before
  }

  lemma {:induction false} CommitsExtend(store: Store, units: seq<Repository>, changed: set<Repository>, origin: Origin,
                                         next: nat)
    requires forall i :: 0 <= i < |units| ==> units[i] in store.branches
    requires forall i, j :: 0 <= i < j < |units| ==> units[i] != units[j]
    ensures OneCommitEach(units, changed, origin, store, ApplyAll(store, CommitEffects(units, changed, origin, next)))
  {
    if |units| > 0 {
      var shorter, unit := units[..|units| - 1], units[|units| - 1];
      CommitsExtend(store, shorter, changed, origin, next);
      var earlier := CommitEffects(shorter, changed, origin, next);
      var now := ApplyAll(store, earlier);
      assert forall other :: other in units <==> other in shorter || other == unit;
      assert now.branches[unit] == store.branches[unit];
      if unit in changed {
        ApplyNext(store, earlier, MakeCommit(unit, Commit(next + |earlier|, origin)));
      }
    }
  }

  predicate MakesNoCommit(effects: seq<Effect>) {
    forall i :: 0 <= i < |effects| ==> !effects[i].MakeCommit? && !effects[i].ForeignMove?
  }

  lemma {:induction false} BranchesKept(store: Store, effects: seq<Effect>)
    requires MakesNoCommit(effects)
    ensures ApplyAll(store, effects).branches == store.branches
    ensures ApplyAll(store, effects).nextCommit == store.nextCommit
  {
    if |effects| > 0 {
      BranchesKept(store, effects[..|effects| - 1]);
    }
  }

  /** The branches after a list that makes one batch of commits. */
  lemma BatchExtends(store: Store, before: seq<Effect>, units: seq<Repository>, changed: set<Repository>,
                     origin: Origin, next: nat, after: seq<Effect>)
    requires store.Prepared(units) && forall i, j :: 0 <= i < j < |units| ==> units[i] != units[j]
    requires MakesNoCommit(before) && MakesNoCommit(after)
    ensures OneCommitEach(units, changed, origin, store,
                          ApplyAll(store, before + CommitEffects(units, changed, origin, next) + after))
  {
    hide ApplyAll;
    var batch := CommitEffects(units, changed, origin, next);
    ApplyJoined(store, before + batch, after);
    ApplyJoined(store, before, batch);
    BranchesKept(store, before);
    CommitsExtend(ApplyAll(store, before), units, changed, origin, next);
    BranchesKept(ApplyAll(store, before + batch), after);
  }

  /** A request that stands for the heads the run read and has not been applied. */
  predicate FixDue(limits: Limits, store: Store, input: StageInput)
    requires store.Prepared(limits.units) && input.WorkInput?
  {
    && !input.loadFails && store.checkpoints.fixRequest.Some?
    && store.checkpoints.fixApplied != Some(store.checkpoints.fixRequest.value.id)
    && store.checkpoints.fixRequest.value.heads == HeadsOf(store, limits.units)
    && store.checkpoints.analysis.Some? && input.route
  }

  lemma FixingPlanIs(limits: Limits, task: Tasks.Task, store: Store, input: StageInput)
    requires store.Prepared(limits.units) && task.state == Fixing && input.WorkInput? && FixDue(limits, store, input)
    ensures var request := store.checkpoints.fixRequest.value;
      var ending := FixingEnding(limits, input, store.nextCommit, request.id, NextAttempt(store.AttemptsOf(Fixing)));
      StagePlan(limits, task, store, input)
      == Plan(WorkerEffects(limits.units, Fixing, input) + ending.effects, ending.outcome)
  {
  }

  /**
   A fix always returns to the gates and is remembered as applied, whether its changes were accepted or discarded. Only
   a moved head, a blocked agent, a limit or a cancellation leaves the request open.
   */
  lemma FixDecides(limits: Limits, task: Tasks.Task, store: Store, input: StageInput)
    requires store.Prepared(limits.units) && task.state == Fixing && input.WorkInput? && FixDue(limits, store, input)
    ensures var found, id := RecordOf(store), store.checkpoints.fixRequest.value.id;
      var outcome, left := StagePlan(limits, task, store, input).outcome, Left(limits, task, store, input);
      if ChangesAccepted(limits.units, input, false) || ChangesRejected(limits.units, input, false) then
        && outcome == Advance(Testing, None, false)
        && left == Closing(found, Fixing, found.checkpoints.(fixApplied := Some(id)))
      else
        && left == Closing(found, Fixing, found.checkpoints)
        && if Stopping(input.result) then AgentStops(input.result, outcome)
           else outcome == Advance(Blocked, None, true)
  {
    hide NextAttempt, ApplyAll, StagePlan, NotedAll, Opening, CommitEffects, Closing, Noted;
    var found, request := RecordOf(store), store.checkpoints.fixRequest.value;
    var attempt := NextAttempt(store.AttemptsOf(Fixing));
    var ending := FixingEnding(limits, input, store.nextCommit, request.id, attempt);
    FixingPlanIs(limits, task, store, input);
    CommitsAreQuiet(limits.units, input.changed, FixCommit(request.id), store.nextCommit);
    WorkShape(limits.units, store, Fixing, input, ending.effects);
    FixEndingNoted(limits, found, input, store.nextCommit, request.id);
  }

  lemma FixEndingNoted(limits: Limits, found: Record, input: StageInput, next: nat, id: RequestId)
    requires input.WorkInput?
    ensures var attempt := NextAttempt(found.AttemptsOf(Fixing));
      NotedAll(Opening(found, Fixing), FixingEnding(limits, input, next, id, attempt).effects)
      == Closing(found, Fixing,
           if ChangesAccepted(limits.units, input, false) || ChangesRejected(limits.units, input, false)
           then found.checkpoints.(fixApplied := Some(id)) else found.checkpoints)
  {
    hide NextAttempt, NotedAll, Opening, CommitEffects;
    var attempt, open := NextAttempt(found.AttemptsOf(Fixing)), Opening(found, Fixing);
    var complete, save := CompleteAttempt(Fixing, attempt), SaveFixApplied(id);
    var commits := CommitEffects(limits.units, input.changed, FixCommit(id), next);
    CommitsAreQuiet(limits.units, input.changed, FixCommit(id), next);
    ClosesWhatIsOpen(found, Fixing);
    EndingsNoted(open, complete, Restore, Restore, Restore);
    EndingsNoted(open, Restore, complete, Restore, Restore);
    EndingsNoted(open, Restore, save, complete, Restore);
    EndingsNoted(open, save, complete, Restore, Restore);
    QuietNotesNothing(open, commits, [save, complete]);
  }

  /** Accepted fixes are committed once on each changed unit; otherwise no branch changes. */
  lemma FixCommitsExactly(limits: Limits, task: Tasks.Task, store: Store, input: StageInput)
    requires store.Prepared(limits.units) && task.state == Fixing && input.WorkInput? && FixDue(limits, store, input)
    requires forall i, j :: 0 <= i < j < |limits.units| ==> limits.units[i] != limits.units[j]
    ensures OneCommitEach(limits.units, if ChangesAccepted(limits.units, input, false) then input.changed else {},
                          FixCommit(store.checkpoints.fixRequest.value.id), store,
                          ApplyAll(store, StagePlan(limits, task, store, input).effects))
  {
    hide NextAttempt, ApplyAll, StagePlan, CommitEffects;
    var id := store.checkpoints.fixRequest.value.id;
    var begun := WorkerEffects(limits.units, Fixing, input);
    var attempt := NextAttempt(store.AttemptsOf(Fixing));
    var ending := FixingEnding(limits, input, store.nextCommit, id, attempt).effects;
    FixingPlanIs(limits, task, store, input);
    if ChangesAccepted(limits.units, input, false) {
      var last := [SaveFixApplied(id), CompleteAttempt(Fixing, attempt)];
      var commits := CommitEffects(limits.units, input.changed, FixCommit(id), store.nextCommit);
      BatchExtends(store, begun, limits.units, input.changed, FixCommit(id), store.nextCommit, last);
      assert begun + ending == begun + commits + last;
    } else {
      BranchesKept(store, begun + ending);
    }
  }

  /** Without a fixer: an applied request returns to the gates, and a request for other heads needs an operator. */
  lemma FixNotDue(limits: Limits, task: Tasks.Task, store: Store, input: StageInput)
    requires store.Prepared(limits.units) && task.state == Fixing && input.WorkInput? && !FixDue(limits, store, input)
    ensures StagePlan(limits, task, store, input) == Plan([],
      if input.loadFails then Threw
      else if store.checkpoints.fixRequest.None? then Advance(Blocked, None, true)
      else if store.checkpoints.fixApplied == Some(store.checkpoints.fixRequest.value.id) then
        Advance(Testing, None, false)
      else if store.checkpoints.fixRequest.value.heads == HeadsOf(store, limits.units)
              && store.checkpoints.analysis.None? then Threw
      else Advance(Blocked, None, true))
  {
  }

  /** An attempt may run: a plan, nothing committed yet, attempts left and a model for this one. */
  predicate ImplementationDue(limits: Limits, task: Tasks.Task, store: Store, input: StageInput)
    requires store.Prepared(limits.units) && input.WorkInput?
  {
    && !input.loadFails && store.checkpoints.analysis.Some? && store.checkpoints.implementation.None?
    && (forall i :: 0 <= i < |limits.units| ==> store.Head(limits.units[i]) == store.branches[limits.units[i]][0])
    && task.implementationAttempts < limits.maxImplementationAttempts && input.route
  }

  lemma ImplementationPlanIs(limits: Limits, task: Tasks.Task, store: Store, input: StageInput)
    requires store.Prepared(limits.units) && task.state == Implementing && input.WorkInput?
    requires ImplementationDue(limits, task, store, input)
    ensures var ending := ImplementationEnding(limits, input, HeadsOf(store, limits.units), store.nextCommit,
                                               task.implementationAttempts + 1,
                                               NextAttempt(store.AttemptsOf(Implementing)));
      StagePlan(limits, task, store, input)
      == Plan(WorkerEffects(limits.units, Implementing, input) + ending.effects, ending.outcome)
  {
  }

  lemma ImplementationEndingStartsNothing(limits: Limits, input: StageInput, heads: Heads, next: nat, number: nat,
                                          attempt: nat)
    requires input.WorkInput?
    ensures var ending := ImplementationEnding(limits, input, heads, next, number, attempt).effects;
      forall i :: 0 <= i < |ending| ==> !ending[i].StartAttempt?
  {
    CommitsAreQuiet(limits.units, input.changed, ImplementationCommit(number), next);
  }

  /**
   An implementation goes on to the gates exactly when the agent finished, the heads stood, every unit changed and the
   changes pass the policy; then the attempt and its commits are remembered. A rejected attempt is remembered too, is
   spent, and is tried again from ready while one is left; otherwise the task fails. A moved head, a blocked agent, a
   limit or a cancellation spends nothing.
   */
  lemma ImplementationDecides(limits: Limits, task: Tasks.Task, store: Store, input: StageInput)
    requires store.Prepared(limits.units) && task.state == Implementing && input.WorkInput?
    requires ImplementationDue(limits, task, store, input)
    ensures var found, number := RecordOf(store), task.implementationAttempts + 1;
      var outcome, left := StagePlan(limits, task, store, input).outcome, Left(limits, task, store, input);
      if ChangesAccepted(limits.units, input, true) then
        && outcome == Advance(Testing, Some(ImplementationAttempts), false)
        && left.checkpoints.implementation.Some? && left.checkpoints.implementation.value.attempt == number
        && left == Closing(found, Implementing, found.checkpoints.(implementation := left.checkpoints.implementation))
      else if ChangesRejected(limits.units, input, true) then
        && outcome == Advance(if number < limits.maxImplementationAttempts then Ready else Failed,
                              Some(ImplementationAttempts), false)
        && left == Closing(found, Implementing, found.checkpoints.(rejected := Some(number)))
      else
        && left == Closing(found, Implementing, found.checkpoints)
        && if Stopping(input.result) then AgentStops(input.result, outcome)
           else outcome == Advance(Blocked, None, true)
  {
    hide NextAttempt, ApplyAll, StagePlan, NotedAll, Opening, CommitEffects, CommittedHeads, Noted;
    var found, heads, number := RecordOf(store), HeadsOf(store, limits.units), task.implementationAttempts + 1;
    var attempt := NextAttempt(store.AttemptsOf(Implementing));
    var ending := ImplementationEnding(limits, input, heads, store.nextCommit, number, attempt);
    ImplementationPlanIs(limits, task, store, input);
    ImplementationEndingStartsNothing(limits, input, heads, store.nextCommit, number, attempt);
    WorkShape(limits.units, store, Implementing, input, ending.effects);
    ImplementationEndingNoted(limits, found, input, heads, store.nextCommit, number);
  }

  lemma ImplementationEndingNoted(limits: Limits, found: Record, input: StageInput, heads: Heads, next: nat,
                                  number: nat)
    requires input.WorkInput?
    ensures var attempt := NextAttempt(found.AttemptsOf(Implementing));
      var left := NotedAll(Opening(found, Implementing),
                           ImplementationEnding(limits, input, heads, next, number, attempt).effects);
      if ChangesAccepted(limits.units, input, true) then
        && left.checkpoints.implementation
             == Some(Implementation(number, CommittedHeads(heads, limits.units, input.changed,
                                                           ImplementationCommit(number), next)))
        && left == Closing(found, Implementing, found.checkpoints.(implementation := left.checkpoints.implementation))
      else if ChangesRejected(limits.units, input, true) then
        left == Closing(found, Implementing, found.checkpoints.(rejected := Some(number)))
      else left == Closing(found, Implementing, found.checkpoints)
  {
    hide NextAttempt, NotedAll, Opening, CommitEffects, CommittedHeads;
    var attempt, open := NextAttempt(found.AttemptsOf(Implementing)), Opening(found, Implementing);
    var origin := ImplementationCommit(number);
    var complete, reject := CompleteAttempt(Implementing, attempt), SaveRejection(number);
    var save := SaveImplementation(Implementation(number,
                  CommittedHeads(heads, limits.units, input.changed, origin, next)));
    var commits := CommitEffects(limits.units, input.changed, origin, next);
    CommitsAreQuiet(limits.units, input.changed, origin, next);
    ClosesWhatIsOpen(found, Implementing);
    EndingsNoted(open, complete, Restore, Restore, Restore);
    EndingsNoted(open, Restore, complete, Restore, Restore);
    EndingsNoted(open, Restore, reject, complete, Restore);
    EndingsNoted(open, Restore, Restore, reject, complete);
    assert [Restore] + Rejected(number, attempt) == [Restore, Restore, reject, complete];
    EndingsNoted(open, save, complete, Restore, Restore);
    QuietNotesNothing(open, commits, [save, complete]);
  }

  /** An accepted implementation commits once on each unit; otherwise no branch changes. */
  lemma ImplementationCommitsExactly(limits: Limits, task: Tasks.Task, store: Store, input: StageInput)
    requires store.Prepared(limits.units) && task.state == Implementing && input.WorkInput?
    requires ImplementationDue(limits, task, store, input)
    requires forall i, j :: 0 <= i < j < |limits.units| ==> limits.units[i] != limits.units[j]
    ensures OneCommitEach(limits.units, if ChangesAccepted(limits.units, input, true) then input.changed else {},
                          ImplementationCommit(task.implementationAttempts + 1), store,
                          ApplyAll(store, StagePlan(limits, task, store, input).effects))
  {
    hide NextAttempt, ApplyAll, StagePlan, CommitEffects, CommittedHeads;
    var heads, number := HeadsOf(store, limits.units), task.implementationAttempts + 1;
    var attempt, origin := NextAttempt(store.AttemptsOf(Implementing)), ImplementationCommit(number);
    var begun := WorkerEffects(limits.units, Implementing, input);
    var ending := ImplementationEnding(limits, input, heads, store.nextCommit, number, attempt).effects;
    ImplementationPlanIs(limits, task, store, input);
    if ChangesAccepted(limits.units, input, true) {
      var save := SaveImplementation(Implementation(number,
                    CommittedHeads(heads, limits.units, input.changed, origin, store.nextCommit)));
      var last := [save, CompleteAttempt(Implementing, attempt)];
      var commits := CommitEffects(limits.units, input.changed, origin, store.nextCommit);
      BatchExtends(store, begun, limits.units, input.changed, origin, store.nextCommit, last);
      assert begun + ending == begun + commits + last;
    } else {
      BranchesKept(store, begun + ending);
    }
  }

  /** The vector a batch of commits is remembered by is the vector of heads it leaves. */
  lemma BatchVector(store: Store, before: seq<Effect>, units: seq<Repository>, changed: set<Repository>, origin: Origin,
                    after: seq<Effect>)
    requires store.Prepared(units) && MakesNoCommit(before) && MakesNoCommit(after)
    requires forall i, j :: 0 <= i < j < |units| ==> units[i] != units[j]
    ensures var end := ApplyAll(store, before + CommitEffects(units, changed, origin, store.nextCommit) + after);
      && end.Prepared(units)
      && HeadsOf(end, units) == CommittedHeads(HeadsOf(store, units), units, changed, origin, store.nextCommit)
  {
    hide ApplyAll, CommittedHeads;
    var batch := CommitEffects(units, changed, origin, store.nextCommit);
    var begun := ApplyAll(store, before);
    ApplyJoined(store, before + batch, after);
    ApplyJoined(store, before, batch);
    BranchesKept(store, before);
    BatchExtends(store, before, units, changed, origin, store.nextCommit, after);
    BranchesKept(ApplyAll(store, before + batch), after);
    RowsKept(store, before + batch + after);
    ExecutionPlansSafe.HeadsAreHeads(store, units);
    ExecutionPlansSafe.CommitsReachHeads(begun, HeadsOf(store, units), units, changed, origin);
    var end := ApplyAll(store, before + batch + after);
    assert end.Prepared(units);
    var reached := CommittedHeads(HeadsOf(store, units), units, changed, origin, store.nextCommit);
    assert forall unit :: unit in units ==> end.Head(unit) == reached[unit];
  }

  lemma {:induction false} RowsKept(store: Store, effects: seq<Effect>)
    ensures ApplyAll(store, effects).rows.Keys >= store.rows.Keys
  {
    if |effects| > 0 {
      RowsKept(store, effects[..|effects| - 1]);
    }
  }

  /** An accepted implementation is remembered by the heads it leaves. */
  lemma ImplementationIsRemembered(limits: Limits, task: Tasks.Task, store: Store, input: StageInput)
    requires store.Prepared(limits.units) && task.state == Implementing && input.WorkInput?
    requires ImplementationDue(limits, task, store, input) && ChangesAccepted(limits.units, input, true)
    requires forall i, j :: 0 <= i < j < |limits.units| ==> limits.units[i] != limits.units[j]
    ensures var after := ApplyAll(store, StagePlan(limits, task, store, input).effects);
      && after.Prepared(limits.units)
      && after.checkpoints.implementation
         == Some(Implementation(task.implementationAttempts + 1, HeadsOf(after, limits.units)))
  {
    hide NextAttempt, ApplyAll, StagePlan, CommitEffects, CommittedHeads, NotedAll;
    var heads, number := HeadsOf(store, limits.units), task.implementationAttempts + 1;
    var attempt, origin := NextAttempt(store.AttemptsOf(Implementing)), ImplementationCommit(number);
    var begun := WorkerEffects(limits.units, Implementing, input);
    var ending := ImplementationEnding(limits, input, heads, store.nextCommit, number, attempt).effects;
    ImplementationPlanIs(limits, task, store, input);
    ImplementationEndingStartsNothing(limits, input, heads, store.nextCommit, number, attempt);
    WorkShape(limits.units, store, Implementing, input, ending);
    ImplementationEndingNoted(limits, RecordOf(store), input, heads, store.nextCommit, number);
    var save := SaveImplementation(Implementation(number,
                  CommittedHeads(heads, limits.units, input.changed, origin, store.nextCommit)));
    var last := [save, CompleteAttempt(Implementing, attempt)];
    BatchVector(store, begun, limits.units, input.changed, origin, last);
    assert begun + ending == begun + CommitEffects(limits.units, input.changed, origin, store.nextCommit) + last;
  }

  /**
   Without an implementer: a committed implementation that is still in its branches goes on to the gates and is counted
   once; commits that nothing recorded need an operator; without attempts or a model the task fails.
   */
  lemma ImplementationNotDue(limits: Limits, task: Tasks.Task, store: Store, input: StageInput)
    requires store.Prepared(limits.units) && task.state == Implementing && input.WorkInput?
    requires !ImplementationDue(limits, task, store, input)
    ensures var plan := StagePlan(limits, task, store, input);
      && plan.effects == []
      && (if input.loadFails || store.checkpoints.analysis.None? then plan.outcome == Threw
          else if store.checkpoints.implementation.Some? then
            var committed := store.checkpoints.implementation.value;
            plan.outcome ==
              if forall i :: 0 <= i < |limits.units| ==>
                   && limits.units[i] in committed.commits
                   && committed.commits[limits.units[i]] in store.branches[limits.units[i]]
              then Advance(Testing, if task.implementationAttempts < committed.attempt then Some(ImplementationAttempts)
                                    else None, false)
              else Advance(Blocked, None, true)
          else if exists i :: 0 <= i < |limits.units|
                              && store.Head(limits.units[i]) != store.branches[limits.units[i]][0] then
            plan.outcome == Advance(Blocked, None, true)
          else plan.outcome == Advance(Failed, None, false))
  {
  }

  // ------------------------------------------------------------------ delivery

  /** The heads the run read are both verified and approved. */
  predicate DeliveryDue(limits: Limits, store: Store, input: StageInput)
    requires store.Prepared(limits.units) && input.DeliveryInput?
  {
    && !input.loadFails && store.checkpoints.reviewApproved == Some(HeadsOf(store, limits.units))
    && store.checkpoints.qualityPassed == Some(HeadsOf(store, limits.units))
  }

  lemma {:induction false} DeliveriesAreQuiet(store: Store, heads: Heads, units: seq<Repository>, numbers: seq<nat>,
                                              full: nat)
    requires full <= |units| && forall i :: 0 <= i < |units| ==> units[i] in store.rows && units[i] in heads
    ensures AllQuiet(FullDeliveries(store, heads, units, numbers, full))
  {
    if full > 0 {
      DeliveriesAreQuiet(store, heads, units, numbers, full - 1);
    }
  }

  /**
   Heads that are not both verified and approved are never delivered: nothing happens and an operator is asked. A
   delivery goes on to wait for checks only when every pull request is open; its attempt is over exactly when it
   succeeded or was rejected, and no checkpoint changes.
   */
  lemma DeliveryDecides(limits: Limits, task: Tasks.Task, store: Store, input: StageInput)
    requires store.Prepared(limits.units) && task.state == PrCreated && input.DeliveryInput?
    ensures var found := RecordOf(store);
      var plan, left := StagePlan(limits, task, store, input), Left(limits, task, store, input);
      if !DeliveryDue(limits, store, input) then
        plan == Plan([], if input.loadFails then Threw else Advance(Blocked, None, true))
      else
        && left == (if input.ending.Delivered? || input.ending.DeliveryRejected?
                    then Closing(found, PrCreated, found.checkpoints) else Opening(found, PrCreated))
        && (match input.ending
            case Delivered => plan.outcome == Advance(WaitingCi, None, false)
            case DeliveryRejected => plan.outcome == Advance(Blocked, None, true)
            case DeliveryWaits(until) => plan.outcome == Wait(until)
            case DeliveryInterrupted => plan.outcome == Interrupted
            case DeliveryThrew => plan.outcome == Threw)
  {
    hide NextAttempt, ApplyAll, NotedAll, Opening, FullDeliveries;
    if DeliveryDue(limits, store, input) {
      var heads, full := HeadsOf(store, limits.units), FullUnits(limits, input);
      var ending := DeliveryConclusion(input, NextAttempt(store.AttemptsOf(PrCreated)));
      var work := DeliveryEffects(limits, store, heads, input);
      DeliveriesAreQuiet(store, heads, limits.units, input.numbers, full);
      RunEnds(store, PrCreated, [], work, ending.effects);
      ClosesWhatIsOpen(RecordOf(store), PrCreated);
      var complete := CompleteAttempt(PrCreated, NextAttempt(store.AttemptsOf(PrCreated)));
      EndingsNoted(Opening(RecordOf(store), PrCreated), complete, Restore, Restore, Restore);
      NothingNoted(Opening(RecordOf(store), PrCreated));
      assert StagePlan(limits, task, store, input).effects == [] + [StartAttempt(PrCreated)] + work + ending.effects;
    }
  }

  lemma NothingNoted(record: Record)
    ensures NotedAll(record, []) == record
  {
  }

  /** The row of unit `i` names the head that was pushed and its pull request. */
  predicate DeliveredRow(store: Store, heads: Heads, units: seq<Repository>, numbers: seq<nat>, after: Store, i: nat)
    requires i < |units|
  {
    && units[i] in after.rows && units[i] in heads
    && after.rows[units[i]].pushedCommit == Some(heads[units[i]])
    && after.rows[units[i]].pullRequestNumber == Some(NumberAt(numbers, i))
    && after.rows[units[i]].state == PrCreated
  }

  lemma {:induction false} FullDeliveriesRecord(store: Store, start: Store, heads: Heads, units: seq<Repository>,
                                                numbers: seq<nat>, full: nat)
    requires full <= |units| && forall i :: 0 <= i < |units| ==> units[i] in store.rows && units[i] in heads
    requires forall i, j :: 0 <= i < j < |units| ==> units[i] != units[j]
    ensures var after := ApplyAll(start, FullDeliveries(store, heads, units, numbers, full));
      && (forall i :: 0 <= i < full ==> DeliveredRow(store, heads, units, numbers, after, i))
      && after.events == start.events + Pushes(heads, units, full)
  {
    hide ApplyAll, Apply, DeliveredRow, Pushes;
    if full == 0 {
      NothingApplied(start);
      assert start.events == start.events + Pushes(heads, units, 0);
    } else {
      FullDeliveriesRecord(store, start, heads, units, numbers, full - 1);
      var earlier := FullDeliveries(store, heads, units, numbers, full - 1);
      var before := ApplyAll(start, earlier);
      var steps := UnitDeliveryEffects(store, heads, units[full - 1], NumberAt(numbers, full - 1));
      ApplyJoined(start, earlier, steps);
      UnitRecorded(before, steps[0], steps[1], steps[2]);
      assert steps == [steps[0], steps[1], steps[2]];
      DeliveredNext(store, heads, units, numbers, before, ApplyAll(before, steps), full);
      assert start.events + Pushes(heads, units, full - 1) + [Pushed(units[full - 1], heads)]
          == start.events + Pushes(heads, units, full);
    }
  }

  lemma DeliveredNext(store: Store, heads: Heads, units: seq<Repository>, numbers: seq<nat>, before: Store,
                      after: Store, full: nat)
    requires 0 < full <= |units| && forall i :: 0 <= i < |units| ==> units[i] in store.rows && units[i] in heads
    requires forall i, j :: 0 <= i < j < |units| ==> units[i] != units[j]
    requires forall i :: 0 <= i < full - 1 ==> DeliveredRow(store, heads, units, numbers, before, i)
    requires var steps := UnitDeliveryEffects(store, heads, units[full - 1], NumberAt(numbers, full - 1));
      after.rows == before.rows[units[full - 1] := steps[2].row]
    ensures forall i :: 0 <= i < full ==> DeliveredRow(store, heads, units, numbers, after, i)
  {
    forall i | 0 <= i < full ensures DeliveredRow(store, heads, units, numbers, after, i) {
      assert i < full - 1 ==> DeliveredRow(store, heads, units, numbers, before, i) && units[i] != units[full - 1];
    }
  }

  lemma UnitRecorded(before: Store, a: Effect, b: Effect, c: Effect)
    requires a.Push? && b.RecordUnit? && c.RecordUnit? && b.repository == c.repository
    ensures var after := ApplyAll(before, [a, b, c]);
      && after.rows == before.rows[c.repository := c.row]
      && after.events == before.events + [Pushed(a.repository, a.heads)]
  {
    ApplyNext(before, [], a);
    ApplyNext(before, [a], b);
    ApplyNext(before, [a, b], c);
    assert [] + [a] == [a] && [a] + [b] == [a, b] && [a, b] + [c] == [a, b, c];
    assert before.rows[c.repository := b.row][c.repository := c.row] == before.rows[c.repository := c.row];
  }

  /** One push of the vector for each of the first units, in order. */
  function Pushes(heads: Heads, units: seq<Repository>, n: nat): (events: seq<Event>)
    requires n <= |units|
    ensures |events| == n && forall i :: 0 <= i < n ==> events[i] == Pushed(units[i], heads)
  {
    seq(n, i requires 0 <= i < n => Pushed(units[i], heads))
  }

  /** A delivery that succeeds has pushed every unit once, in order, and recorded its head and its pull request. */
  lemma DeliveryRecordsEveryUnit(limits: Limits, task: Tasks.Task, store: Store, input: StageInput)
    requires store.Prepared(limits.units) && task.state == PrCreated && input.DeliveryInput?
    requires DeliveryDue(limits, store, input) && input.ending.Delivered?
    requires forall i, j :: 0 <= i < j < |limits.units| ==> limits.units[i] != limits.units[j]
    ensures var after, heads := ApplyAll(store, StagePlan(limits, task, store, input).effects),
                                HeadsOf(store, limits.units);
      && after.events == store.events + Pushes(heads, limits.units, |limits.units|)
      && forall i :: 0 <= i < |limits.units| ==> DeliveredRow(store, heads, limits.units, input.numbers, after, i)
  {
    hide ApplyAll, NextAttempt, FullDeliveries, Pushes;
    var heads, units := HeadsOf(store, limits.units), limits.units;
    var work := FullDeliveries(store, heads, units, input.numbers, |units|);
    var complete := CompleteAttempt(PrCreated, NextAttempt(store.AttemptsOf(PrCreated)));
    assert StagePlan(limits, task, store, input).effects == [StartAttempt(PrCreated)] + work + [complete];
    ApplyNext(store, [], StartAttempt(PrCreated));
    NothingApplied(store);
    assert [] + [StartAttempt(PrCreated)] == [StartAttempt(PrCreated)];
    ApplyJoined(store, [StartAttempt(PrCreated)], work);
    FullDeliveriesRecord(store, ApplyAll(store, [StartAttempt(PrCreated)]), heads, units, input.numbers, |units|);
    var delivered := ApplyAll(store, [StartAttempt(PrCreated)] + work);
    ApplyNext(store, [StartAttempt(PrCreated)] + work, complete);
    forall i | 0 <= i < |units|
      ensures DeliveredRow(store, heads, units, input.numbers, Apply(delivered, complete), i)
    {
      assert DeliveredRow(store, heads, units, input.numbers, delivered, i);
    }
  }

  lemma NothingApplied(store: Store)
    ensures ApplyAll(store, []) == store
  {
  }
}
