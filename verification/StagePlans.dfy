/**
 The stage handlers as plans: the durable effects one run of a handler performs, in order, and the outcome it returns.
 Agents, quality commands and Git inspection are inputs; a run that crashes performs a prefix of its plan. Commits that
 somebody else makes meanwhile are no part of a plan: they may fall between any two of its effects.
 */
module StagePlans {
  import opened Wrappers
  import opened Domain
  import opened Commits
  import opened ExecutionStore
  import Observation
  import Tasks

  datatype Limits = Limits(
    units: seq<Repository>,
    policies: map<Repository, Observation.Policy>,
    maxImplementationAttempts: nat,
    maxQualityFixAttempts: nat,
    maxReviewCycles: nat,
    deliver: bool)

  datatype StageOutcome =
    | Advance(to: TaskState, increment: Option<AttemptCounter>, manual: bool)
    | PauseLimit(reason: PauseReason, resumeAfter: Option<int>)
    | Wait(until: int)
    | Interrupted
    /** The handler threw; the scheduler hands the task to an operator. */
    | Threw

  datatype Plan = Plan(effects: seq<Effect>, outcome: StageOutcome)

  const MANUAL: StageOutcome := Advance(Blocked, None, true)

  function Step(to: TaskState): StageOutcome {
    Advance(to, None, false)
  }

  function Consuming(to: TaskState, counter: AttemptCounter): StageOutcome {
    Advance(to, Some(counter), false)
  }

  datatype AgentResult =
    | UsageLimited(retryAfter: Option<int>)
    | RateLimited(until: int)
    | AgentCancelled
    | InvalidOutput
    | TimedOut
    | RunnerFailed
    | AgentBlocked
    | AgentDone

  /** Results that stop a stage without consuming an attempt. */
  function PauseOrInterruption(result: AgentResult): Option<StageOutcome> {
    match result
    case UsageLimited(retryAfter) => Some(PauseLimit(UsageLimit, retryAfter))
    case RateLimited(until) => Some(PauseLimit(RateLimit, Some(until)))
    case AgentCancelled => Some(Interrupted)
    case _ => None
  }

  datatype PreparationResult = WorkspacesReady | RemoteDown(retryAt: int) | PreparationInterrupted | PreparationThrew

  datatype GateReport = GatePassed | GateFailed | GateAborted | GateInfrastructure

  datatype Verdict = Approve | RequestChanges | Reject

  datatype DeliveryEnding =
    | Delivered | DeliveryRejected | DeliveryWaits(until: int) | DeliveryInterrupted | DeliveryThrew

  function ObservationOutcome(ending: Observation.ObservationEnding): StageOutcome {
    match ending
    case ReadyForReview => Step(ReadyForHumanReview)
    case ChecksRunningAgain => Step(WaitingCi)
    case MergedEverywhere => Step(Completed)
    case DeliveryBlocked => MANUAL
    case KeepsWaiting(until) => Wait(until)
    case ObservationInterrupted => Interrupted
    case ObservationThrew => Threw
  }

  /** What one run of a handler meets. `moved` is what its check finds: a head is no longer where the run found it. */
  datatype StageInput =
    | AnalysisInput(preparation: PreparationResult, loadFails: bool, digest: string, result: AgentResult, wrote: bool,
                    moved: bool, problems: bool, clarification: bool)
    | ReadyInput(loadFails: bool, needsSetup: bool, touched: set<Repository>, aborted: bool, setupPassed: bool)
    | WorkInput(loadFails: bool, route: bool, result: AgentResult, touched: set<Repository>, moved: bool,
                changed: set<Repository>, violation: bool)
    | TestInput(loadFails: bool, reports: seq<GateReport>)
    | ReviewInput(loadFails: bool, result: AgentResult, wrote: bool, moved: bool, problems: bool, verdict: Verdict,
                  blockingFinding: bool)
    /**
     `full` units are pushed, recorded and given a pull request; of the next one, `partial` of these steps are done.
     */
    | DeliveryInput(loadFails: bool, full: nat, partial: nat, numbers: seq<nat>, ending: DeliveryEnding)
    | ObservationInput(matches: bool, turns: seq<Observation.Turn>, commented: bool, retryAt: int, pollAt: int)

  predicate SameHeads(recorded: Option<Heads>, heads: Heads) {
    recorded == Some(heads)
  }

  /** An agent or a command writes only inside the task's own worktrees. */
  function Within(units: seq<Repository>, touched: set<Repository>): (within: set<Repository>)
    ensures forall unit :: unit in within ==> unit in units
  {
    set unit | unit in touched && unit in units
  }

  // ------------------------------------------------------------------ analysis and setup

  /** A read-only agent under a new attempt; it may write although it must not. */
  function ReaderEffects(units: seq<Repository>, stage: TaskState, wrote: bool): seq<Effect> {
    [StartAttempt(stage), RunAgent(false, if wrote then set unit | unit in units else {})]
  }

  predicate AnalysisRuns(store: Store, input: StageInput)
    requires input.AnalysisInput?
  {
    && input.preparation.WorkspacesReady? && !input.loadFails && store.checkpoints.analysis != Some(input.digest)
  }

  /** What remains of an analysis once its agent has returned. */
  function AnalysisEnding(input: StageInput, attempt: nat): Plan
    requires input.AnalysisInput?
  {
    var completed := [CompleteAttempt(Analyzing, attempt)];
    if input.wrote || input.moved then Plan(completed, MANUAL)
    else if PauseOrInterruption(input.result).Some? then Plan(completed, PauseOrInterruption(input.result).value)
    else if !input.result.AgentDone? || input.problems || input.clarification then Plan(completed, MANUAL)
    else Plan([SaveAnalysis(input.digest), CompleteAttempt(Analyzing, attempt)], Step(Ready))
  }

  function AnalysisPlan(limits: Limits, store: Store, input: StageInput): Plan
    requires store.Prepared(limits.units) && input.AnalysisInput?
  {
    match input.preparation
    case RemoteDown(retryAt) => Plan([], PauseLimit(RemoteUnavailable, Some(retryAt)))
    case PreparationInterrupted => Plan([], Interrupted)
    case PreparationThrew => Plan([], Threw)
    case WorkspacesReady =>
      if input.loadFails then Plan([], Threw)
      else if store.checkpoints.analysis == Some(input.digest) then Plan([], Step(Ready))
      else
        var ending := AnalysisEnding(input, NextAttempt(store.AttemptsOf(Analyzing)));
        Plan(ReaderEffects(limits.units, Analyzing, input.wrote) + ending.effects, ending.outcome)
  }

  predicate SetupRuns(limits: Limits, store: Store, input: StageInput)
    requires store.Prepared(limits.units) && input.ReadyInput?
  {
    !input.loadFails && input.needsSetup && !SameHeads(store.checkpoints.setup, HeadsOf(store, limits.units))
  }

  function SetupEnding(input: StageInput, heads: Heads, attempt: nat): Plan
    requires input.ReadyInput?
  {
    if input.aborted then Plan([CompleteAttempt(Ready, attempt)], Interrupted)
    else if !input.setupPassed then Plan([CompleteAttempt(Ready, attempt)], MANUAL)
    else Plan([Restore, SaveSetup(heads), CompleteAttempt(Ready, attempt)], Step(Implementing))
  }

  function SetupEffects(units: seq<Repository>, input: StageInput): seq<Effect>
    requires input.ReadyInput?
  {
    [StartAttempt(Ready), RunSetup(Within(units, input.touched))]
  }

  function ReadyPlan(limits: Limits, store: Store, input: StageInput): Plan
    requires store.Prepared(limits.units) && input.ReadyInput?
  {
    if input.loadFails then Plan([], Threw)
    else if !SetupRuns(limits, store, input) then Plan([], Step(Implementing))
    else
      var ending := SetupEnding(input, HeadsOf(store, limits.units), NextAttempt(store.AttemptsOf(Ready)));
      Plan(SetupEffects(limits.units, input) + ending.effects, ending.outcome)
  }

  // ------------------------------------------------------------------ implementation and fixes

  /** A write-enabled agent under a new attempt, on restored worktrees. */
  function WorkerEffects(units: seq<Repository>, stage: TaskState, input: StageInput): seq<Effect>
    requires input.WorkInput?
  {
    [Restore, StartAttempt(stage), RunAgent(true, Within(units, input.touched))]
  }

  /** One commit for every changed unit, in unit order, with fresh identities. */
  function CommitEffects(units: seq<Repository>, changed: set<Repository>, origin: Origin, next: nat): seq<Effect> {
    if |units| == 0 then []
    else
      var earlier := CommitEffects(units[..|units| - 1], changed, origin, next);
      var unit := units[|units| - 1];
      if unit in changed then earlier + [MakeCommit(unit, Commit(next + |earlier|, origin))] else earlier
  }

  function CommittedHeads(heads: Heads, units: seq<Repository>, changed: set<Repository>, origin: Origin,
                          next: nat): Heads {
    if |units| == 0 then heads
    else
      var earlier := CommittedHeads(heads, units[..|units| - 1], changed, origin, next);
      var unit := units[|units| - 1];
      if unit in changed then
        earlier[unit := Commit(next + |CommitEffects(units[..|units| - 1], changed, origin, next)|, origin)]
      else earlier
  }

  predicate PolicyViolated(limits: Limits, input: StageInput, everyUnit: bool)
    requires input.WorkInput?
  {
    || input.violation
    || (forall i :: 0 <= i < |limits.units| ==> limits.units[i] !in input.changed)
    || (everyUnit && exists i :: 0 <= i < |limits.units| && limits.units[i] !in input.changed)
  }

  /** A unit whose recorded commit is missing or no longer in its branch. */
  predicate CommitLost(store: Store, units: seq<Repository>, commits: Heads)
    requires store.Prepared(units)
  {
    exists i :: 0 <= i < |units| && (units[i] !in commits || commits[units[i]] !in store.branches[units[i]])
  }

  predicate HasUnrecordedCommits(store: Store, units: seq<Repository>)
    requires store.Prepared(units)
  {
    exists i :: 0 <= i < |units| && store.Head(units[i]) != store.branches[units[i]][0]
  }

  function RejectOutcome(limits: Limits, number: nat): StageOutcome {
    Consuming(if number >= limits.maxImplementationAttempts then Failed else Ready, ImplementationAttempts)
  }

  /** Discard, remember why, and complete the attempt. */
  function Rejected(number: nat, attempt: nat): seq<Effect> {
    [Restore, SaveRejection(number), CompleteAttempt(Implementing, attempt)]
  }

  predicate ImplementationRuns(limits: Limits, task: Tasks.Task, store: Store, input: StageInput)
    requires store.Prepared(limits.units) && input.WorkInput?
  {
    && !input.loadFails && store.checkpoints.analysis.Some? && store.checkpoints.implementation.None?
    && !HasUnrecordedCommits(store, limits.units)
    && task.implementationAttempts + 1 <= limits.maxImplementationAttempts && input.route
  }

  /** The outcome of an implementation run that needs no agent. */
  function ImplementationShortcut(limits: Limits, task: Tasks.Task, store: Store, input: StageInput): StageOutcome
    requires store.Prepared(limits.units) && input.WorkInput?
  {
    if input.loadFails || store.checkpoints.analysis.None? then Threw
    else if store.checkpoints.implementation.Some? then
      var committed := store.checkpoints.implementation.value;
      if CommitLost(store, limits.units, committed.commits) then MANUAL
      else
        Advance(Testing, if task.implementationAttempts < committed.attempt then Some(ImplementationAttempts) else None,
                false)
    else if HasUnrecordedCommits(store, limits.units) then MANUAL
    else Step(Failed)
  }

  /** What remains of an implementation run once its agent has returned. */
  function ImplementationEnding(limits: Limits, input: StageInput, heads: Heads, next: nat, number: nat,
                                attempt: nat): Plan
    requires input.WorkInput?
  {
    var complete := CompleteAttempt(Implementing, attempt);
    if PauseOrInterruption(input.result).Some? then
      Plan(if input.result.AgentCancelled? then [Restore, complete] else [complete],
           PauseOrInterruption(input.result).value)
    else if input.result.AgentBlocked? then Plan([Restore, complete], MANUAL)
    else if !input.result.AgentDone? then Plan(Rejected(number, attempt), RejectOutcome(limits, number))
    else if input.moved then Plan([complete], MANUAL)
    else if PolicyViolated(limits, input, true) then
      Plan([Restore] + Rejected(number, attempt), RejectOutcome(limits, number))
    else
      var origin := ImplementationCommit(number);
      var commits := CommittedHeads(heads, limits.units, input.changed, origin, next);
      Plan(CommitEffects(limits.units, input.changed, origin, next)
             + [SaveImplementation(Implementation(number, commits)), complete],
           Consuming(Testing, ImplementationAttempts))
  }

  function ImplementationPlan(limits: Limits, task: Tasks.Task, store: Store, input: StageInput): Plan
    requires store.Prepared(limits.units) && input.WorkInput?
  {
    if !ImplementationRuns(limits, task, store, input) then
      Plan([], ImplementationShortcut(limits, task, store, input))
    else
      var ending := ImplementationEnding(limits, input, HeadsOf(store, limits.units), store.nextCommit,
                                         task.implementationAttempts + 1, NextAttempt(store.AttemptsOf(Implementing)));
      Plan(WorkerEffects(limits.units, Implementing, input) + ending.effects, ending.outcome)
  }

  predicate FixingRuns(limits: Limits, store: Store, input: StageInput)
    requires store.Prepared(limits.units) && input.WorkInput?
  {
    && !input.loadFails && store.checkpoints.fixRequest.Some?
    && store.checkpoints.fixApplied != Some(store.checkpoints.fixRequest.value.id)
    && store.checkpoints.fixRequest.value.heads == HeadsOf(store, limits.units)
    && store.checkpoints.analysis.Some? && input.route
  }

  /** The outcome of a fixing run that needs no agent. */
  function FixingShortcut(limits: Limits, store: Store, input: StageInput): StageOutcome
    requires store.Prepared(limits.units) && input.WorkInput?
  {
    if input.loadFails then Threw
    else if store.checkpoints.fixRequest.None? then MANUAL
    else
      var request := store.checkpoints.fixRequest.value;
      if store.checkpoints.fixApplied == Some(request.id) then Step(Testing)
      else if request.heads != HeadsOf(store, limits.units) then MANUAL
      else if store.checkpoints.analysis.None? then Threw
      else MANUAL
  }

  /** What remains of a fixing run once its agent has returned. */
  function FixingEnding(limits: Limits, input: StageInput, next: nat, id: RequestId, attempt: nat): Plan
    requires input.WorkInput?
  {
    var complete := CompleteAttempt(Fixing, attempt);
    if PauseOrInterruption(input.result).Some? then
      Plan(if input.result.AgentCancelled? then [Restore, complete] else [complete],
           PauseOrInterruption(input.result).value)
    else if input.result.AgentBlocked? then Plan([Restore, complete], MANUAL)
    else if !input.result.AgentDone? then Plan([Restore, SaveFixApplied(id), complete], Step(Testing))
    else if input.moved then Plan([complete], MANUAL)
    else if PolicyViolated(limits, input, false) then Plan([Restore, SaveFixApplied(id), complete], Step(Testing))
    else
      Plan(CommitEffects(limits.units, input.changed, FixCommit(id), next) + [SaveFixApplied(id), complete],
           Step(Testing))
  }

  function FixingPlan(limits: Limits, store: Store, input: StageInput): Plan
    requires store.Prepared(limits.units) && input.WorkInput?
  {
    if !FixingRuns(limits, store, input) then Plan([], FixingShortcut(limits, store, input))
    else
      var ending := FixingEnding(limits, input, store.nextCommit, store.checkpoints.fixRequest.value.id,
                                 NextAttempt(store.AttemptsOf(Fixing)));
      Plan(WorkerEffects(limits.units, Fixing, input) + ending.effects, ending.outcome)
  }

  // ------------------------------------------------------------------ quality gates

  function Report(input: StageInput, i: nat): GateReport
    requires input.TestInput?
  {
    if i < |input.reports| then input.reports[i] else GatePassed
  }

  /** The first unit at which the gates stop early, or the number of units. */
  function GatesStopAt(input: StageInput, units: seq<Repository>, from: nat): (n: nat)
    requires input.TestInput? && from <= |units|
    ensures from <= n <= |units|
    decreases |units| - from
  {
    if from == |units| || Report(input, from) in {GateAborted, GateInfrastructure} then from
    else GatesStopAt(input, units, from + 1)
  }

  function GateEffects(input: StageInput, units: seq<Repository>): (effects: seq<Effect>)
    requires input.TestInput?
    ensures |effects| == |units|
    ensures forall i :: 0 <= i < |units| ==> effects[i] == RunGate(units[i], Report(input, i) == GatePassed)
  {
    seq(|units|, i requires 0 <= i < |units| => RunGate(units[i], Report(input, i) == GatePassed))
  }

  /** The units whose gates run: all of them, or those up to the one that stops the run. */
  function UnitsRun(input: StageInput, units: seq<Repository>): seq<Repository>
    requires input.TestInput?
  {
    var stop := GatesStopAt(input, units, 0);
    if stop < |units| then units[..stop + 1] else units
  }

  predicate AllGatesPassed(input: StageInput, units: seq<Repository>)
    requires input.TestInput?
  {
    forall i :: 0 <= i < |units| ==> Report(input, i) == GatePassed
  }

  predicate TestingRuns(limits: Limits, store: Store, input: StageInput)
    requires store.Prepared(limits.units) && input.TestInput?
  {
    !input.loadFails && !SameHeads(store.checkpoints.qualityPassed, HeadsOf(store, limits.units))
  }

  /** Restore, open an attempt, run the gates, and restore again. */
  function TestingEffects(limits: Limits, input: StageInput): seq<Effect>
    requires input.TestInput?
  {
    [Restore, StartAttempt(Testing)] + GateEffects(input, UnitsRun(input, limits.units)) + [Restore]
  }

  /** What remains of a testing run once the gates have stopped and the worktrees are restored. */
  function TestingEnding(limits: Limits, task: Tasks.Task, input: StageInput, heads: Heads, attempt: nat): Plan
    requires input.TestInput?
  {
    var stop := GatesStopAt(input, limits.units, 0);
    var complete := CompleteAttempt(Testing, attempt);
    if stop < |limits.units| then Plan([complete], if Report(input, stop) == GateAborted then Interrupted else MANUAL)
    else if AllGatesPassed(input, limits.units) then Plan([SaveQuality(heads), complete], Step(Reviewing))
    else if task.qualityFixAttempts >= limits.maxQualityFixAttempts then Plan([complete], Step(Failed))
    else
      Plan([complete, SaveFixRequest(FixRequest(QualityRequest(attempt), heads))],
           Consuming(Fixing, QualityFixAttempts))
  }

  function TestingPlan(limits: Limits, task: Tasks.Task, store: Store, input: StageInput): Plan
    requires store.Prepared(limits.units) && input.TestInput?
  {
    if !TestingRuns(limits, store, input) then Plan([], if input.loadFails then Threw else Step(Reviewing))
    else
      var ending := TestingEnding(limits, task, input, HeadsOf(store, limits.units),
                                  NextAttempt(store.AttemptsOf(Testing)));
      Plan(TestingEffects(limits, input) + ending.effects, ending.outcome)
  }

  // ------------------------------------------------------------------ review

  /** Blocking findings override an approval. */
  function EffectiveVerdict(input: StageInput): Verdict
    requires input.ReviewInput?
  {
    if input.verdict == Approve && input.blockingFinding then RequestChanges else input.verdict
  }

  function Accepted(limits: Limits): StageOutcome {
    Step(if limits.deliver then PrCreated else Blocked)
  }

  predicate ReviewRuns(limits: Limits, store: Store, input: StageInput)
    requires store.Prepared(limits.units) && input.ReviewInput?
  {
    var heads := HeadsOf(store, limits.units);
    && !input.loadFails && !SameHeads(store.checkpoints.reviewApproved, heads)
    && SameHeads(store.checkpoints.qualityPassed, heads) && store.checkpoints.analysis.Some?
  }

  function ReviewShortcut(limits: Limits, store: Store, input: StageInput): StageOutcome
    requires store.Prepared(limits.units) && input.ReviewInput?
  {
    var heads := HeadsOf(store, limits.units);
    if input.loadFails then Threw
    else if SameHeads(store.checkpoints.reviewApproved, heads) then Accepted(limits)
    else if !SameHeads(store.checkpoints.qualityPassed, heads) then MANUAL
    else Threw
  }

  /** What remains of a review once its agent has returned. */
  function ReviewEnding(limits: Limits, task: Tasks.Task, input: StageInput, heads: Heads, attempt: nat): Plan
    requires input.ReviewInput?
  {
    var complete := CompleteAttempt(Reviewing, attempt);
    if input.wrote || input.moved then Plan([complete], MANUAL)
    else if PauseOrInterruption(input.result).Some? then Plan([complete], PauseOrInterruption(input.result).value)
    else if !input.result.AgentDone? || input.problems then Plan([complete], MANUAL)
    else
      match EffectiveVerdict(input)
      case Approve => Plan([SaveReview(heads), complete], Accepted(limits))
      case Reject => Plan([complete], MANUAL)
      case RequestChanges =>
        if task.reviewAttempts >= limits.maxReviewCycles then Plan([complete], Step(Failed))
        else
          Plan([complete, SaveFixRequest(FixRequest(ReviewRequest(attempt), heads))], Consuming(Fixing, ReviewAttempts))
  }

  function ReviewPlan(limits: Limits, task: Tasks.Task, store: Store, input: StageInput): Plan
    requires store.Prepared(limits.units) && input.ReviewInput?
  {
    if !ReviewRuns(limits, store, input) then Plan([], ReviewShortcut(limits, store, input))
    else
      var ending := ReviewEnding(limits, task, input, HeadsOf(store, limits.units),
                                 NextAttempt(store.AttemptsOf(Reviewing)));
      Plan(ReaderEffects(limits.units, Reviewing, input.wrote) + ending.effects, ending.outcome)
  }

  // ------------------------------------------------------------------ delivery of the reviewed branches

  /** Push, record the pushed commit, and record the pull request. */
  function UnitDeliveryEffects(store: Store, heads: Heads, unit: Repository, number: nat): (effects: seq<Effect>)
    requires unit in store.rows && unit in heads
    ensures |effects| == 3
  {
    var pushed := store.rows[unit].(pushedCommit := Some(heads[unit]), state := PrCreated);
    [Push(unit, heads), RecordUnit(unit, pushed), RecordUnit(unit, pushed.(pullRequestNumber := Some(number)))]
  }

  function NumberAt(numbers: seq<nat>, i: nat): nat {
    if i < |numbers| then numbers[i] else 0
  }

  /** The first `full` units entirely. */
  function FullDeliveries(store: Store, heads: Heads, units: seq<Repository>, numbers: seq<nat>, full: nat): seq<Effect>
    requires full <= |units| && forall i :: 0 <= i < |units| ==> units[i] in store.rows && units[i] in heads
  {
    if full == 0 then []
    else
      FullDeliveries(store, heads, units, numbers, full - 1)
      + UnitDeliveryEffects(store, heads, units[full - 1], NumberAt(numbers, full - 1))
  }

  /** How far a delivery gets: an ending with every pull request open has delivered every unit. */
  function FullUnits(limits: Limits, input: StageInput): (full: nat)
    requires input.DeliveryInput?
    ensures full <= |limits.units|
  {
    if input.ending.Delivered? || input.full > |limits.units| then |limits.units| else input.full
  }

  function PartialSteps(input: StageInput): (partial: nat)
    requires input.DeliveryInput?
    ensures partial <= 2
  {
    if input.partial > 2 then 2 else input.partial
  }

  predicate DeliveryRuns(limits: Limits, store: Store, input: StageInput)
    requires store.Prepared(limits.units) && input.DeliveryInput?
  {
    var heads := HeadsOf(store, limits.units);
    && !input.loadFails && SameHeads(store.checkpoints.reviewApproved, heads)
    && SameHeads(store.checkpoints.qualityPassed, heads)
  }

  function DeliveryEffects(limits: Limits, store: Store, heads: Heads, input: StageInput): seq<Effect>
    requires input.DeliveryInput?
    requires forall i :: 0 <= i < |limits.units| ==> limits.units[i] in store.rows && limits.units[i] in heads
  {
    var full := FullUnits(limits, input);
    FullDeliveries(store, heads, limits.units, input.numbers, full)
    + if full == |limits.units| then []
      else UnitDeliveryEffects(store, heads, limits.units[full], NumberAt(input.numbers, full))[..PartialSteps(input)]
  }

  /** A delivery completes its attempt when it is over for good; a wait, an abort or an unknown error leaves it open. */
  function DeliveryConclusion(input: StageInput, attempt: nat): Plan
    requires input.DeliveryInput?
  {
    match input.ending
    case Delivered => Plan([CompleteAttempt(PrCreated, attempt)], Step(WaitingCi))
    case DeliveryRejected => Plan([CompleteAttempt(PrCreated, attempt)], MANUAL)
    case DeliveryWaits(until) => Plan([], Wait(until))
    case DeliveryInterrupted => Plan([], Interrupted)
    case DeliveryThrew => Plan([], Threw)
  }

  function DeliveryPlan(limits: Limits, store: Store, input: StageInput): Plan
    requires store.Prepared(limits.units) && input.DeliveryInput?
  {
    if !DeliveryRuns(limits, store, input) then Plan([], if input.loadFails then Threw else MANUAL)
    else
      var ending := DeliveryConclusion(input, NextAttempt(store.AttemptsOf(PrCreated)));
      Plan([StartAttempt(PrCreated)] + DeliveryEffects(limits, store, HeadsOf(store, limits.units), input)
             + ending.effects,
           ending.outcome)
  }

  // ------------------------------------------------------------------ observation of the pull requests

  /** Every registered repository has a policy. */
  function PolicyOf(limits: Limits, unit: Repository): Observation.Policy {
    if unit in limits.policies then limits.policies[unit] else Observation.Policy("", 0)
  }

  function Observed(limits: Limits, store: Store, unit: Repository, turn: Observation.Turn): Observation.UnitDelivery
    requires unit in store.rows && turn.Seen?
  {
    Observation.Observe(PolicyOf(limits, unit), store.rows[unit], turn.facts, turn.now)
  }

  function RecordEffect(limits: Limits, store: Store, unit: Repository, turn: Observation.Turn): Effect
    requires unit in store.rows && turn.Seen?
  {
    RecordUnit(unit, Observation.Recorded(PolicyOf(limits, unit), store.rows[unit], turn.facts, turn.now))
  }

  /** The first `n` units, each recorded as it is seen. */
  function RecordEffects(limits: Limits, store: Store, turns: seq<Observation.Turn>, n: nat): (effects: seq<Effect>)
    requires store.Prepared(limits.units) && n <= |limits.units|
    requires forall i :: 0 <= i < n ==> Observation.TurnAt(turns, i).Seen?
    ensures |effects| == n
  {
    seq(n, i requires 0 <= i < n => RecordEffect(limits, store, limits.units[i], Observation.TurnAt(turns, i)))
  }

  function Deliveries(limits: Limits, store: Store, turns: seq<Observation.Turn>,
                      n: nat): (deliveries: seq<Observation.UnitDelivery>)
    requires store.Prepared(limits.units) && n <= |limits.units|
    requires forall i :: 0 <= i < n ==> Observation.TurnAt(turns, i).Seen?
    ensures |deliveries| == n
  {
    seq(n, i requires 0 <= i < n => Observed(limits, store, limits.units[i], Observation.TurnAt(turns, i)))
  }

  /** How a pass ends: at the first unit that cannot be observed, or by the decision over all of them. */
  function PassEnding(limits: Limits, task: Tasks.Task, store: Store, input: StageInput): Observation.ObservationEnding
    requires store.Prepared(limits.units) && input.ObservationInput?
  {
    var seen := Observation.StopsAt(input.turns, 0, |limits.units|);
    if !input.matches then Observation.DeliveryBlocked
    else if seen < |limits.units| then Observation.StoppedBy(Observation.TurnAt(input.turns, seen))
    else
      Observation.Decide(task.state, Deliveries(limits, store, input.turns, seen), input.commented, input.retryAt,
                         input.pollAt)
  }

  /** One attempt per state change, recorded when a whole pass decided it. */
  function ConclusionEffects(limits: Limits, task: Tasks.Task, store: Store, input: StageInput): seq<Effect>
    requires store.Prepared(limits.units) && input.ObservationInput?
  {
    var whole := Observation.StopsAt(input.turns, 0, |limits.units|) == |limits.units|;
    if whole && Observation.Concludes(PassEnding(limits, task, store, input)) then
      [StartAttempt(task.state), CompleteAttempt(task.state, NextAttempt(store.AttemptsOf(task.state)))]
    else []
  }

  function ObservationPlan(limits: Limits, task: Tasks.Task, store: Store, input: StageInput): Plan
    requires store.Prepared(limits.units) && input.ObservationInput?
  {
    if !input.matches then Plan([], MANUAL)
    else
      Plan(RecordEffects(limits, store, input.turns, Observation.StopsAt(input.turns, 0, |limits.units|))
             + ConclusionEffects(limits, task, store, input),
           ObservationOutcome(PassEnding(limits, task, store, input)))
  }

  /** The plan of the handler for the task's state; an input of another stage is a run that fails at once. */
  function StagePlan(limits: Limits, task: Tasks.Task, store: Store, input: StageInput): Plan
    requires store.Prepared(limits.units)
  {
    if task.state == Analyzing && input.AnalysisInput? then AnalysisPlan(limits, store, input)
    else if task.state == Ready && input.ReadyInput? then ReadyPlan(limits, store, input)
    else if task.state == Implementing && input.WorkInput? then ImplementationPlan(limits, task, store, input)
    else if task.state == Testing && input.TestInput? then TestingPlan(limits, task, store, input)
    else if task.state == Fixing && input.WorkInput? then FixingPlan(limits, store, input)
    else if task.state == Reviewing && input.ReviewInput? then ReviewPlan(limits, task, store, input)
    else if task.state == PrCreated && input.DeliveryInput? then DeliveryPlan(limits, store, input)
    else if task.state in {WaitingCi, ReadyForHumanReview} && input.ObservationInput? then
      ObservationPlan(limits, task, store, input)
    else Plan([], Threw)
  }
}
