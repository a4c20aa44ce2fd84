# Verification of the task orchestrator

This project models the service that takes planned issues through analysis, implementation, quality gates, review and
delivery, and proves what it keeps true while workers, recovery, an operator, people who commit to its branches, and
people on GitHub and Linear act at the same time and processes crash at any point. `dafny verify dfyconfig.toml` checks
all of it.

| files | subject |
|---|---|
| `Domain`, `Tasks`, `TaskRepository`, `TaskActions`, `TaskRuns`, `TaskLimits`, `ClaimLaws` | the task table: states and legal transitions, each repository operation as one transaction, a class whose methods perform them, what every run of workers, recovery and operator keeps, and which rows are claimed, recovered and retried in terms of their columns |
| `Scheduler` | the loop around one claimed task: boundary checks, the handler of the stage, its outcome, hand-over |
| `Planning`, `Dependencies` | the backlog's cycle check, and exactly when the dependencies of an accepted backlog hold everything back |
| `Commits`, `ExecutionStore`, `StagePlans`, `ExecutionSafety`, `ExecutionPlansSafe` | the durable effects of the handlers, the plan of effects each handler performs, the rules every effect obeys, and the proof that every plan obeys them |
| `ExecutionDrift`, `GatePasses` | other people's commits between any two effects of a run: the rules still hold, and exactly when a recorded pass is true |
| `ExecutionStages` | the handlers as methods that perform one effect after another while others commit, proved to follow their plans and to leave every state in order |
| `StageLaws` | what each handler run decides and leaves behind, in terms of what it found and met, without its plan |
| `ExecutionRuns`, `RunRecords` | one supervised task over whole runs, with crashes and other people's commits between any two effects, the termination measure, what every advance leaves for the next stage, and what review and completion mean |
| `Delivery`, `RequiredChecks`, `Observation`, `ObservationLaws` | pushes, pull requests and comments under crashes and lost answers, required checks, what an observation says in terms of what GitHub reports, completion |
| `Workspace`, `WorkspaceManager` | preparation of a task's worktree, its crash states and reruns, the unforced push |
| `OperatingHours`, `StageGate`, `Glob`, `StableJson`, `DiffParsing`, `CircuitBreaker` | the schedule arithmetic, the glob compiler, canonical printing, the diff parsers, the circuit breaker |

An operation that changes state is a method of a class; its contract ties the new state to a specification function of
the old one, and the lemmas about runs are stated on those functions. A handler run is a list of durable effects with
other people's commits anywhere in between, so a crash is a prefix of that list.

Where the code does less than its comments or a first reading say, the code is followed:

- The daily start budget holds for every 24 hours that exclude one end instant, not for a day that counts both: the
  query counts starts strictly after the instant 24 hours ago (`TaskLimits.ClosedDayCanHoldOneMore`).
  `TaskLimits.ClosedDayExceedsExactlyWhen` says at which starts and by how much.
- A backlog without cycles does not keep the queue moving by itself: whatever waits for a cancelled task, directly or
  through others, never starts (`Dependencies.CancelledBlockerStarves`).
  `Dependencies.QueueMovesExactlyWhileUnstarved` says exactly when some task is free.
- The schedule drops milliseconds, so the reported remaining time can outlast the window by less than a second
  (`OperatingHours.ReportedTimeCanOutlastTheWindow`), and a stage can be interrupted that much before its required
  minutes have passed (`StageGate.AdmittedStageCanLoseHalfASecond`). `OperatingHours.OpenForReportedTime` and
  `StageGate.AdmittedStageKeepsItsMinutes` say exactly when neither happens.
- An advance keeps the lease, so a leased task can cross into a lane that is full (`TaskLimits.DeliveryLaneCanHoldTwo`).
  `TaskLimits.LaneOverfillsExactlyByCrossing` says that no other step overfills a lane; the limits hold in every run for
  the tasks that have not crossed since their claim, and for every claim at the moment it is made.
- A provider's hint can be undercut by a call that began earlier: its failure replaces the hint, its success drops it
  (`CircuitBreaker.LateFailureShortensHint`, `CircuitBreaker.LateSuccessDropsHint`).
  `CircuitBreaker.LetInEarlyExactlyWhenLoosened` says exactly when.
- The testing stage reads the heads once, so the pass it records is true exactly when nobody moved a branch before its
  own gate (`GatePasses.PassIsTrueExactlyWhenNothingMovedFirst`), and it can name a commit that no gate ran on
  (`GatePasses.LateMoveRecordsUngatedHead`). What is pushed was verified all the same
  (`ExecutionRuns.PushedVectorsWereVerifiedAndApproved`), because a vector that is still current at delivery never
  moved.
- Canonical printing hides key order for exactly those values in which no two keys of one object tie
  (`StableJson.PrintsOneWayExactlyWithoutTies`); a locale comparison ties some pairs of different strings.

## Model

| member | source | states |
|---|---|---|
| TaskRepository.TaskTable.TransitionLockedTask | src/repositories/task.repository.ts:155-214 | a transition changes the row as validated and appends its history record, or is refused for ownership, legality or a missing resume state and changes nothing |
| TaskRepository.TaskTable.ClaimNextTask | src/repositories/task.repository.ts:369-484 | claims a first eligible unlocked row by priority and age within the limits, or nothing exactly when no row qualifies |
| TaskRepository.TaskTable.ReleaseLease | src/repositories/task.repository.ts:516-536 | only the holder clears the lease; the state stays |
| TaskRepository.TaskTable.DeferTask | src/repositories/task.repository.ts:542-551 | only the holder clears the lease and sets when the task is due again |
| TaskRepository.TaskTable.Heartbeat | src/repositories/task.repository.ts:553-567 | only the holder extends the lease; a nonpositive duration is refused |
| TaskRepository.TaskTable.RecoverRow | src/repositories/task.repository.ts:768-787 | a selected row is blocked with the lease cleared and the flag set, or only flagged; no other row changes |
| TaskRepository.TaskTable.RecoverLeases | src/repositories/task.repository.ts:758-789 | recovers exactly the unlocked rows whose lease ended before now, or that the worker owns, and that are neither blocked nor finished; each is blocked, flagged and let go, and every other row stands |
| TaskRepository.TaskTable.RetryTask | src/repositories/operator.repository.ts:145-161 | re-queues an unleased blocked or failed task; counters restart only after failure |
| TaskRepository.TaskTable.CancelTask | src/repositories/operator.repository.ts:167-186 | cancels an unleased task at once, records a request on a leased one |
| TaskRepository.TaskTable.RequireManualIntervention | src/repositories/operator.repository.ts:192-212 | blocks an unleased task where legal, otherwise only flags it; refuses finished tasks |
| TaskRuns.PerformShape | src/repositories/task.repository.ts:155-214 | every action changes at most its own row: in place, by one legal recorded transition, or by creating it |
| TaskRuns.HistoryIsALegalWalk | src/repositories/task.repository.ts:168-213 | in every run each task's history is a walk from queued through legal transitions to its current state |
| TaskRuns.FinishedStays | src/types/domain.ts:77-102 | completed and cancelled are absorbing in every run |
| TaskRuns.PauseReturnsOrStops | src/orchestrator/scheduler.ts:493-503 | after the holder pauses from x, the next transition, whoever causes it, returns to x, blocks or cancels |
| TaskRuns.HolderRules | src/repositories/task.repository.ts:155-171 | a leased row's state changes only by its holder or by recovery, of an expired lease or of that holder's own, into blocked with the lease cleared and the flag set; no step hands the lease to another worker |
| TaskRuns.OwnershipPassesThroughUnleased | src/repositories/task.repository.ts:453-483 | over any run in which the row stays leased its holder stays the same |
| TaskRuns.RecoveredWaitsForRetry | src/repositories/task.repository.ts:758-788 | a recovered task is leased to nobody in any run without an operator retry |
| TaskRuns.RecoveryAlwaysBlocks | src/repositories/task.repository.ts:763-787 | every selected row can be blocked, so the flag-only fallback is never taken |
| TaskRuns.NoDeliveryWithoutReview | src/types/domain.ts:44-75 | in every run the history of a task that is delivered or completed records that its review was accepted |
| ClaimLaws.CandidatesAreClaimable | src/repositories/task.repository.ts:372-463 | a claim considers exactly the rows that are free, unflagged, uncancelled, with room in their repositories, and whose wait is over: blockers completed, schedule open, or due time reached, by state |
| ClaimLaws.FirstComesFirst | src/repositories/task.repository.ts:447-466 | a queued row is claimed only when no claimable row is paused or in progress, a paused one only when none is in progress, and within a kind no claimable row is older |
| ClaimLaws.ClaimableIsClaimed | src/repositories/task.repository.ts:383-386 | with room in the lane, the only claimable unlocked row is claimed |
| ClaimLaws.ClaimLeaves | src/repositories/task.repository.ts:470-482 | a claimed row is analyzed, resumed where it was paused, or left in its state, under a lease of one duration from now |
| ClaimLaws.RecoveryTakesExactly | src/repositories/task.repository.ts:746-789 | a recovery pass changes exactly the leased rows whose lease ended before now, or that the worker owns, and that are neither blocked nor finished; it blocks, flags and frees them |
| ClaimLaws.LeaseTermsInEveryRun | src/repositories/task.repository.ts:553-567 | in every run every lease ends one lease duration after the last heartbeat or claim |
| ClaimLaws.PunctualHolderKeepsItsRow | src/repositories/task.repository.ts:746-748 | in every run a holder heard of at least once per lease duration loses its row to no recovery of expired leases |
| ClaimLaws.RetryLeaves | src/repositories/operator.repository.ts:145-161 | a retry takes effect exactly on an unleased blocked or failed row, which is queued again without flag, cancel request, pause or due time, with fresh counters only after failure |
| ClaimLaws.RetriedIsClaimable | src/repositories/operator.repository.ts:145-161 | a retried task can be claimed as soon as new tasks may start, its blockers are done and its repositories have room |
| ClaimLaws.DeferredWaitsForItsTime | src/repositories/task.repository.ts:542-551 | a deferred task is claimed by nobody before its time |
| ClaimLaws.CancelLeaves | src/repositories/operator.repository.ts:167-186 | a cancel request ends a free task at once and marks a held one, which nobody else can claim |
| ClaimLaws.FlagLeaves | src/repositories/operator.repository.ts:192-212 | an operator's flag blocks a free task and marks a held one; nobody can claim it |
| TaskLimits.ClaimRespectsLimits | src/repositories/task.repository.ts:369-401 | each claim leaves its lane's leases and its repositories' leases within their limits |
| TaskLimits.ClaimedLane | src/repositories/task.repository.ts:372-379 | the claimed task's new state lies in the lane it was claimed for, and no other row changes |
| TaskLimits.LimitsHoldInEveryRun | src/repositories/task.repository.ts:383-401 | in every run the leased tasks that have not crossed lanes since their claim never exceed the lane's limit or any repository's limit |
| TaskLimits.LaneOverfillsExactlyByCrossing | src/repositories/task.repository.ts:383-386 | a step takes a lane from within its limit to above it if and only if the lane was full and the holder of a task from the other lane advances it there without giving up the lease |
| TaskLimits.DeliveryLaneCanHoldTwo | src/orchestrator/scheduler.ts:530-541 | a concrete run with one slot in each lane in which two leased tasks await delivery |
| TaskLimits.DailyStartsWithinBudget | src/repositories/task.repository.ts:403-412 | in every run at most the configured number of tasks start in any 24 hours counted from just after an instant |
| TaskLimits.ClosedDayExceedsExactlyWhen | src/repositories/task.repository.ts:406-411 | in every run a day that counts both end instants exceeds the budget if and only if a task started at its last instant when the starts since its first instant, that instant included, already filled the budget, which is the claim's check with `>=` for `>`; then tasks start at both ends, and the excess is at most the starts at either end |
| TaskLimits.ClosedDayCanHoldOneMore | src/repositories/task.repository.ts:406-411 | a concrete run in which a day that counts both end instants holds one start more |
| TaskLimits.StartedTasksHaveCompletedBlockers | src/repositories/task.repository.ts:415-429 | in every run a task that ever started has only completed blockers |
| Scheduler.TaskRunner.Boundary | src/orchestrator/scheduler.ts:446-508 | a handler runs exactly when the row is held, unflagged, handled and permitted; otherwise one admitted action gives the lease up and the first cause that applies decides the new state |
| Scheduler.TaskRunner.PauseForSchedule | src/orchestrator/scheduler.ts:491-508 | a closed schedule pauses the task where it stands, to resume there, or only releases it when its state cannot pause |
| Scheduler.TaskRunner.ApplyOutcome | src/orchestrator/scheduler.ts:528-573 | each outcome changes the table exactly as the run model says, by one admitted action; a run that ends without losing its lease has given it up |
| Scheduler.TaskRunner.FailTask | src/orchestrator/scheduler.ts:598-614 | a failed stage is handed over exactly as the run model says and ends without the lease |
| Scheduler.TaskRunner.RunTask | src/orchestrator/scheduler.ts:403-585 | everything the loop does to the table is accounted for by its own admitted actions, every handler run follows its plan and leaves each state in order, and a loop that ends has let the task go |
| Planning.CheckDependencies | src/intake/planning-contract.ts:139-190 | reports a cycle exactly when keys repeat or the blocking graph has a cycle; reports nothing exactly when the backlog is well formed and acyclic |
| Planning.AddIssue | src/intake/planning-contract.ts:141-158 | one issue's blockers add exactly its edges to the degrees and dependents, and its problems are reported |
| Planning.Drain | src/intake/planning-contract.ts:178-187 | visiting the queue takes every issue after its blockers and keeps the remaining degrees exact |
| Planning.Sort | src/intake/planning-contract.ts:176-187 | the visited order covers every key unless the graph has a cycle |
| Planning.OrderedIsAcyclic | src/intake/planning-contract.ts:178-190 | a graph whose keys can be ordered behind their blockers has no cycle |
| Planning.SortedOrCyclic | src/intake/planning-contract.ts:188-190 | keys left unvisited are each blocked by another unvisited key, which is a cycle |
| Planning.SomeIssueIsFree | src/repositories/task.repository.ts:415-429 | in an acyclic backlog every nonempty set of issues contains one with no blocker in the set |
| Dependencies.QueueMovesExactlyWhileUnstarved | src/repositories/task.repository.ts:415-429 | in every run over an acyclic backlog some open task has all its blockers completed if and only if some open task has no cancelled blocker, direct or transitive |
| Dependencies.QueueNeverDeadlocks | src/repositories/task.repository.ts:415-429 | while nothing is cancelled, an open task means that some open task has all its blockers completed |
| Dependencies.StarvedNeverStarts | src/repositories/task.repository.ts:415-429 | in every run a task with a cancelled blocker, direct or transitive, has not started and is no candidate of any claim |
| Dependencies.StarvedStays | src/types/domain.ts:77-102 | a task with a cancelled blocker has one in every continuation of the run |
| Dependencies.CancelledBlockerStarves | src/repositories/operator.repository.ts:167-186 | a concrete acyclic backlog in which one cancellation leaves the other task open and no open task free |
| OperatingHours.OperatingHoursFor | src/scheduling/operating-hours.ts:38-88 | the loops over today's and yesterday's windows compute the specified verdict and remaining time |
| OperatingHours.OpenExactlyInWindows | src/scheduling/operating-hours.ts:54-80 | open exactly when some window's interval on the time line contains the instant |
| OperatingHours.RemainingEndsAWindow | src/scheduling/operating-hours.ts:32-36 | the remaining time ends when the last covering window of one day closes |
| OperatingHours.OpenUntilRemaining | src/scheduling/operating-hours.ts:32-88 | while open with some time remaining it stays open for all of that time, which is positive and at most a day |
| OperatingHours.OpenForReportedTime | src/scheduling/operating-hours.ts:35-50 | counted from the instant itself the reported time is kept if and only if the instant is a whole second or another window is open when it ends |
| OperatingHours.ReportedTimeCanOutlastTheWindow | src/scheduling/operating-hours.ts:35-50 | a concrete schedule and instant at which the reported time outlasts the window |
| StageGate.AdmittedStageKeepsItsMinutes | src/scheduling/stage-gate.ts:39-86 | a stage admitted under the normal override is not interrupted before its required minutes have passed, if and only if none are required, nothing interrupts such a stage, it started on a whole second, or the schedule is open in the second in which they end |
| StageGate.AdmittedStageCanLoseHalfASecond | src/scheduling/stage-gate.ts:75-86 | a concrete schedule and instant at which an admitted stage is interrupted before its minutes have passed |
| StageGate.OverrideDecides | src/scheduling/stage-gate.ts:39-69 | an enabled override lets every stage start, a disabled one only mechanical stages if these run at any hour, and without one a stage also starts while there is no schedule or it stays open for as long as the stage needs |
| StageGate.InterruptionDecides | src/scheduling/stage-gate.ts:77-86 | a running stage is stopped exactly when steps are not always finished, it does not run at any hour, and the override is disabled or no window is open under the normal one |
| ExecutionStages.Handlers.LoadHeads | src/execution/stages/stage-support.ts:113-142 | the commit vector names the current head of every unit |
| ExecutionStages.Handlers.RestoreAll | src/execution/stages/stage-support.ts:144-148 | after the loop no worktree holds uncommitted changes; apart from other people's commits nothing else changed |
| ExecutionStages.Handlers.BeginAttempt | src/repositories/task.repository.ts:623-641 | an open attempt is reused, otherwise the next number is opened |
| ExecutionStages.Handlers.AgentLeftGitState | src/execution/stages/change-application.ts:13-24 | true exactly when every unit still has the head the run began with |
| ExecutionStages.Handlers.CommitChanges | src/execution/stages/change-application.ts:54-59 | one commit for every changed unit in order, and the vector that results |
| ExecutionStages.Handlers.InspectAndCommit | src/execution/stages/change-application.ts:30-60 | a head found moved commits nothing, a policy violation discards everything, otherwise every changed unit is committed |
| ExecutionStages.Handlers.Implement | src/execution/stages/implementation-stage.ts:21-109 | performs exactly the effects of its plan in order, for what its check of the heads found, and returns its outcome |
| ExecutionStages.Handlers.RejectAttempt | src/execution/stages/implementation-stage.ts:111-129 | a rejected attempt is discarded, remembered and completed; the last one fails the task |
| ExecutionStages.Handlers.Fix | src/execution/stages/fixing-stage.ts:21-89 | performs exactly the effects of its plan in order, for what its check of the heads found, and returns its outcome |
| ExecutionStages.Handlers.RunAllGates | src/execution/stages/testing-stage.ts:28-43 | gates run unit by unit up to the first that cannot run, each on the head its branch has by then, and the verdict is over all of them |
| ExecutionStages.Handlers.Test | src/execution/stages/testing-stage.ts:16-65 | performs exactly the effects of its plan in order and returns its outcome, while any branch may move before any gate |
| ExecutionStages.Handlers.Review | src/execution/stages/review-stage.ts:28-97 | performs exactly the effects of its plan in order, for what its check of the heads found, and returns its outcome |
| ExecutionStages.Handlers.Analyze | src/execution/stages/analysis-stage.ts:17-68 | performs exactly the effects of its plan in order; an accepted analysis is reused only for the same contract digest |
| ExecutionStages.Handlers.Prepare | src/execution/stages/ready-stage.ts:16-45 | performs exactly the effects of its plan in order and returns its outcome |
| ExecutionStages.Handlers.Deliver | src/delivery/pull-request-stage.ts:78-134 | pushes and records the units in order only when the heads are both verified and approved, and completes its attempt only when delivery has succeeded or was rejected |
| ExecutionStages.Handlers.ObserveAll | src/delivery/observation-stage.ts:62-73 | units are observed and recorded in order up to the first that cannot be |
| ExecutionStages.Handlers.Observe | src/delivery/observation-stage.ts:55-139 | one pass records every status it sees before it decides over all of them, and records an attempt exactly when a whole pass changes the state |
| ExecutionStages.Handlers.RunStage | src/orchestrator/scheduler.ts:519-530 | the handler of the task's state follows its plan for the store it found, whatever others commit before each effect, and after every single effect the store is in order |
| ExecutionSafety.StartKeepsOrder | src/repositories/task.repository.ts:623-641 | attempt numbers stay 1 to n with at most the last open, and a started attempt was never completed |
| ExecutionSafety.RequestStillOpen | src/execution/stages/fixing-stage.ts:28-29 | a branch whose head is still the one a fix request names carries no commit of that request |
| ExecutionSafety.AllowedKeepsStore | src/execution/stages/change-application.ts:30-60 | each rule of the store keeps branch, numbering, fix, quality and cleanliness invariants together |
| ExecutionSafety.CrashAnywhere | src/execution/stages/stage-support.ts:72-83 | after any prefix of an allowed list of effects the store is in order |
| ExecutionSafety.CurrentReviewIsApproved | src/delivery/pull-request-stage.ts:83-98 | an approval recorded for the current heads was given to exactly these commits after gates had passed on each of them |
| ExecutionDrift.AllowedFollows | src/execution/stages/change-application.ts:13-24 | whatever the rules allow on the heads a run found they allow on branches that have gone on |
| ExecutionDrift.WovenAllowed | src/execution/stages/testing-stage.ts:16-65 | a plan that obeys the rules undisturbed obeys them whatever others commit between its effects |
| GatePasses.PassIsTrueExactlyWhenNothingMovedFirst | src/execution/stages/testing-stage.ts:19-51 | a run whose gates all pass records a pass for the heads it read, and each gate ran on its unit's recorded head if and only if nobody moved a branch before its own gate |
| GatePasses.LateMoveRecordsUngatedHead | src/execution/stages/testing-stage.ts:19-51 | a concrete run on one unit of a new task that records a pass for a commit on which no gate ran |
| ExecutionPlansSafe.RequestIsNew | src/execution/stages/testing-stage.ts:63-63 | the request a run makes under its own attempt number was never made before |
| ExecutionPlansSafe.GatesAllowed | src/execution/stages/testing-stage.ts:26-45 | undisturbed, each gate runs on a clean worktree at the head the run began with |
| ExecutionPlansSafe.BatchAllowed | src/execution/stages/change-application.ts:54-59 | a batch of commits obeys the rules and the recorded vector is the vector of branch heads afterwards |
| ExecutionPlansSafe.ImplementationAllowed | src/execution/stages/implementation-stage.ts:21-129 | every effect of an implementation run obeys the rules when its turn comes |
| ExecutionPlansSafe.FixingAllowed | src/execution/stages/fixing-stage.ts:21-89 | every effect of a fixing run obeys the rules |
| ExecutionPlansSafe.TestingAllowed | src/execution/stages/testing-stage.ts:16-65 | every effect of a testing run obeys the rules; undisturbed, a pass is recorded only for the vector just verified |
| ExecutionPlansSafe.ReviewAllowed | src/execution/stages/review-stage.ts:28-97 | every effect of a review obeys the rules; an approval is recorded only for the vector recorded as passed |
| ExecutionPlansSafe.DeliveryAllowed | src/delivery/pull-request-stage.ts:83-98 | every push is of a vector that was verified and then approved |
| ExecutionPlansSafe.ObservationAllowed | src/delivery/observation-stage.ts:55-139 | every effect of an observation obeys the rules |
| ExecutionPlansSafe.StageCrashSafe | src/execution/stages/stage-support.ts:72-83 | whatever state, input, commits of others in between and crash point, a handler run leaves the store in order |
| StageLaws.FailedGatesAskForAFix | src/execution/stages/testing-stage.ts:46-63 | a run whose gates all ran reaches review exactly when all passed, with the pass of the heads it read recorded; a failed gate requests a fix of those heads under the run's own attempt and spends an attempt while one is left, and otherwise fails the task |
| StageLaws.GatesThatCannotRun | src/execution/stages/testing-stage.ts:32-41 | the first gate that cannot run ends the run with no checkpoint changed: an abort interrupts, anything else needs an operator |
| StageLaws.VerdictDecides | src/execution/stages/review-stage.ts:78-97 | a proper review approves the heads it read exactly for an approval without blocking findings; a rejection goes to an operator; anything else requests a fix of those heads and spends a cycle while one is left, and otherwise fails the task |
| StageLaws.SpoiltReviewSavesNothing | src/execution/stages/review-stage.ts:58-76 | a review that wrote, moved, was stopped or gave no usable answer changes no checkpoint |
| StageLaws.AnalysisDecides | src/execution/stages/analysis-stage.ts:40-68 | an analysis is accepted, and remembered for its contract, exactly when the agent changed nothing and answered with a proper plan that needs no clarification |
| StageLaws.SetupDecides | src/execution/stages/ready-stage.ts:19-44 | a ready task goes on exactly when no setup is needed, it was done for these heads, or it runs through now and is remembered for them |
| StageLaws.FixDecides | src/execution/stages/fixing-stage.ts:47-89 | accepted and rejected fixes return to the gates and are remembered as applied; a moved head, a blocked agent, a limit or a cancellation leaves the request open |
| StageLaws.FixCommitsExactly | src/execution/stages/fixing-stage.ts:67-89 | an accepted fix adds one commit of its request to each changed unit; otherwise no branch changes |
| StageLaws.ImplementationDecides | src/execution/stages/implementation-stage.ts:78-129 | an implementation reaches the gates exactly when it is accepted on every unit; a rejected attempt is spent, remembered, and tried again while one is left, and otherwise fails the task; anything else spends nothing |
| StageLaws.ImplementationCommitsExactly | src/execution/stages/implementation-stage.ts:88-109 | an accepted implementation adds one commit of its attempt to each unit; otherwise no branch changes |
| StageLaws.ImplementationIsRemembered | src/execution/stages/implementation-stage.ts:106-109 | an accepted implementation is remembered by its attempt and the heads it leaves |
| StageLaws.ImplementationNotDue | src/execution/stages/implementation-stage.ts:27-51 | a committed implementation still in its branches is reused and counted once, unrecorded commits need an operator, and without attempts or a model the task fails |
| StageLaws.DeliveryDecides | src/delivery/pull-request-stage.ts:83-133 | heads that are not both verified and approved are never delivered; the attempt is over exactly when delivery succeeded or was rejected |
| StageLaws.DeliveryRecordsEveryUnit | src/delivery/pull-request-stage.ts:88-105 | a delivery that succeeds has pushed every unit once, in order, and recorded its head and its pull request |
| ExecutionRuns.StoreInOrderInEveryRun | src/orchestrator/scheduler.ts:445-580 | the store stays in order in every run of claims, handler effects, other people's commits at any moment, crashes, recoveries and operator actions |
| ExecutionRuns.OneCommitPerRequestInEveryRun | src/execution/stages/fixing-stage.ts:25-29 | each branch carries at most one implementation commit and at most one commit per fix request |
| ExecutionRuns.RequestsAreNewInEveryRun | src/execution/stages/fixing-stage.ts:66-88 | a fix request's identity differs from every identity requested or recorded as applied before it |
| ExecutionRuns.PushedVectorsWereVerifiedAndApproved | src/delivery/pull-request-stage.ts:83-98 | before a push of a vector, a review approved it, and before that one run of gates passed on every commit of it, clean |
| ExecutionRuns.ApprovalNeedsVerdict | src/execution/stages/review-stage.ts:57-83 | an approval is recorded only by a review that changed nothing, had no problem and effectively approved the heads it read, for which a pass was recorded |
| ExecutionRuns.CompletionNeedsEveryMerge | src/delivery/observation-stage.ts:104-118 | a step that completes the task ends a pass from human review that saw every pull request merged with a commit its base contains, with every work unit recorded as completed with that commit |
| ExecutionRuns.CompletedTasksAreMerged | src/delivery/observation-stage.ts:47-54 | in every run a completed task has every work unit recorded as merged |
| RunRecords.AdvancesKeepPromisesInEveryRun | src/orchestrator/scheduler.ts:530-543 | in every run of a new task each advance is the end of a handler of its state and leaves what the next stage relies on: an analysis of its contract, a setup, gates passed, an unapplied request or an approval for the heads it read, or an applied fix |
| RunRecords.AdvanceIsAFinish | src/orchestrator/scheduler.ts:530-543 | only a finished handler advances a task; nothing an operator, a recovery or another worker does can |
| RunRecords.ReviewNeedsEveryCheck | src/delivery/observation-stage.ts:120-134 | a step from waiting for checks to human review ends a pass that saw every pull request in place and each merged or with all its required checks successful |
| RunRecords.PassDecides | src/delivery/observation-stage.ts:84-139 | what a whole pass makes of the task, from the verdicts on its units |
| RunRecords.StoppedPassDecides | src/delivery/observation-stage.ts:62-82 | a pass that cannot observe a unit records those before it and waits, asks an operator, fails or is interrupted |
| RunRecords.AdvanceLeaves | src/orchestrator/scheduler.ts:530-543 | an accepted advance keeps the lease and spends exactly the attempt it names; an illegal one hands the task over |
| RunRecords.LimitLeaves | src/orchestrator/scheduler.ts:544-560 | a limit parks the task to resume where it stands, not before the given time or else the configured pause |
| RunRecords.EndingLeaves | src/orchestrator/scheduler.ts:561-585 | a wait frees the task until its time, an abort changes nothing, an error hands the task over |
| ExecutionRuns.AdvanceGoesDown | src/execution/stages/implementation-stage.ts:42-50 | every advance out of an execution state lowers the rank or spends an attempt that remains |
| ExecutionRuns.FinishLoses | src/orchestrator/scheduler.ts:530-565 | applying an outcome never raises the potential, and an advance among the execution states lowers it |
| ExecutionRuns.RetryGrantsOneCycle | src/repositories/operator.repository.ts:149-157 | a retry leaves the counters within their limits and grants at most one full allowance |
| ExecutionRuns.CountersWithinLimits | src/execution/stages/testing-stage.ts:59-64 | no counter passes its limit in any run |
| ExecutionRuns.AdvancesArePaidFor | src/orchestrator/scheduler.ts:530-543 | without an operator retry the potential pays for every advance among the execution states |
| ExecutionRuns.BoundedAdvances | src/orchestrator/scheduler.ts:530-565 | between operator retries at most three times all attempt limits plus six such advances happen, however pauses, crashes and resumes interleave |
| ExecutionRuns.RunsRefineTheTable | src/orchestrator/scheduler.ts:528-580 | every supervised run is a run of the task table, so the table's theorems hold in it |
| ExecutionRuns.RunsBeginInOrder | src/repositories/task.repository.ts:291-326 | a new task with branches at their bases satisfies everything the run theorems ask for |
| Delivery.Reconcile | src/delivery/pull-request-stage.ts:222-245 | nothing is reported only when no pull request is listed or recorded; an adopted one is intact, on the base, open or merged, and has the recorded number if one is recorded |
| Delivery.SoleIsAdopted | src/delivery/pull-request-stage.ts:222-259 | the only open pull request, or the only merged one while none is open, is adopted exactly when it is intact, on the base and matches a recorded number |
| Delivery.NoSoleNoneAdopted | src/delivery/pull-request-stage.ts:226-236 | without such a pull request nothing is adopted, and an operator is needed unless nothing is listed or recorded |
| Delivery.RecordedNumberStays | src/delivery/pull-request-stage.ts:247-250 | in every run with crashes and people acting the number recorded for a repository is never replaced by another |
| Delivery.NothingIsDuplicated | src/delivery/delivery-support.ts:75-87 | in every run with crashes, lost answers and people acting, at most one pull request of ours per repository and one comment per event exist |
| Delivery.SuccessStep | src/delivery/delivery-support.ts:75-87 | one step keeps a succeeded push, pull request or comment operation's response and does not run its effect |
| Delivery.SuccessIsFinal | src/repositories/task.repository.ts:689-716 | a succeeded operation keeps its response in every run |
| Delivery.PresentBranchIsLeftAlone | src/workspaces/workspace-manager.ts:223-228 | in every run a task branch that is on the remote is not pushed again, whatever crashes and whichever heads are to be delivered, as long as people leave it alone |
| Delivery.PushKeepsCommits | src/workspaces/workspace-manager.ts:226-232 | no step of the process drops a commit from a remote branch, whatever people pushed between its look and its push |
| Delivery.RerunAdopts | src/delivery/pull-request-stage.ts:182-191 | wherever an earlier run crashed, the next run records the pull request that exists and makes no other |
| Delivery.DeliveryProcess.BeginExternalOperation | src/repositories/task.repository.ts:689-706 | inserts the intent or reports the existing record |
| Delivery.DeliveryProcess.CompleteExternalOperation | src/repositories/task.repository.ts:709-716 | only the lease holder records the result |
| Delivery.DeliveryProcess.PushReviewed | src/delivery/pull-request-stage.ts:169-180 | is a run of the protocol; success means the push is recorded and the remote branch contains the reviewed commit at the last look; undisturbed, it pushes exactly when the push is not recorded and the branch is absent, and rejects a branch that lacks the commit |
| Delivery.DeliveryProcess.EnsurePullRequest | src/delivery/pull-request-stage.ts:182-219 | is a run of the protocol; success means the number is recorded, is the one recorded before if there was one, the operation succeeded and that pull request exists; no recorded number changes; undisturbed, it adopts what reconciliation finds, creates exactly one when nothing is listed, and otherwise hands over |
| Delivery.DeliveryProcess.SyncLinearComment | src/delivery/delivery-support.ts:107-127 | is a run of the protocol; success means the operation succeeded; undisturbed, it posts exactly when no earlier run did |
| Delivery.DeliveryProcess.RecordWorkUnitDelivery | src/repositories/task.repository.ts:723-744 | only the lease holder stores the number |
| Delivery.DeliveryProcess.NothingTwice | src/delivery/pull-request-stage.ts:66-72 | whatever the process has done, nothing of ours exists twice |
| RequiredChecks.ObserveRequirement | src/delivery/required-checks.ts:43-50 | failed with any matching failure, successful only with a matching success and nothing else, missing without a match |
| RequiredChecks.Distinct | src/delivery/required-checks.ts:39-41 | the table of requirements denotes the same ones as the policy, each context and app once |
| RequiredChecks.EvaluateRequiredChecks | src/delivery/required-checks.ts:38-56 | no policy, failed, passed or pending exactly as the policy's requirements say, duplicates included |
| Observation.FirstSightingIsKept | src/delivery/observation-stage.ts:165-168 | while the head stands still the first sighting is kept and is not later than the first look at it |
| Observation.PendingChecksTimeOut | src/delivery/observation-stage.ts:190-227 | for a head that stands still no observation later than the timeout after its first sighting leaves checks pending |
| ObservationLaws.ChecksDecide | src/delivery/observation-stage.ts:209-234 | a delivered, open pull request in place has passed exactly when something is required and each requirement has only successful reports; it is blocked when nothing is required, a requirement has a failed report, or the checks are overdue; otherwise it waits |
| ObservationLaws.MergeDecides | src/delivery/observation-stage.ts:196-207 | a merged pull request counts exactly when its merge commit is known and in the base, and is blocked only when a known one stays out for longer than the timeout |
| ObservationLaws.OtherwiseBlocked | src/delivery/observation-stage.ts:158-211 | a pull request that is not delivered, moved elsewhere, rewritten, closed or in conflict is blocked |
| ObservationLaws.RecordTells | src/delivery/observation-stage.ts:62-73 | the recorded row shows the verdict, and a head keeps the time of its first sighting |
| Workspace.AllowedKeepsPreparable | src/workspaces/workspace-manager.ts:144-149 | each Git effect keeps the clone a state from which preparation can continue |
| Workspace.PrepareAllowed | src/workspaces/workspace-manager.ts:95-152 | from any clone at all, each effect of a run is such an effect when its turn comes |
| Workspace.CrashesKeepPreparable | src/workspaces/workspace-manager.ts:144-149 | any number of crashed runs leave a clone from which preparation can continue |
| Workspace.FavourableRunSucceeds | src/workspaces/workspace-manager.ts:129-152 | with a reachable remote, no remote task branch and enough disk, a run ends with the locked worktree above its recorded base |
| Workspace.CrashedRunsConverge | src/workspaces/workspace-manager.ts:95-152 | after any crashed runs one favourable run ends with the task's worktree at its recorded base |
| Workspace.UnknownTaskIsPreparable | src/workspaces/workspace-manager.ts:113-127 | a clone that has never seen the task is one from which preparation can continue |
| Workspace.RunsLeaveOthersAlone | src/workspaces/workspace-manager.ts:439-458 | no run, crashed or not, touches another branch, marker or worktree; the local base branch only fast-forwards |
| Workspace.VisitsKeepPreparable | src/workspaces/workspace-manager.ts:106-152 | crashed runs of any tasks of one clone, in any order, leave a clone from which each of them can still be prepared |
| Workspace.InterleavedRunsConverge | src/workspaces/workspace-manager.ts:95-152 | after crashed runs of this task and of others in any order one favourable run ends with the task's worktree at its recorded base |
| Workspace.SucceedsExactlyWhen | src/workspaces/workspace-manager.ts:95-152 | a preparation succeeds exactly when the request is proper and it finds the task's own worktree, or nothing stands against making one in conducive circumstances; which of the two and at which base |
| Workspace.RefusalLeavesNothing | src/workspaces/workspace-manager.ts:95-135 | the remote is reported unavailable exactly when only that stands against making a worktree; whatever is refused before the fetch leaves the clone as it was |
| Workspace.BaseFollowsExactlyWhen | src/workspaces/workspace-manager.ts:129-152 | a new branch fetches the remote base first, and the local base follows exactly when that only goes forward and a checkout of it can follow |
| WorkspaceManager.Manager.Prepare | src/workspaces/workspace-manager.ts:95-152 | performs exactly the planned effects in order and returns the planned result |
| WorkspaceManager.Manager.VerifyReusableWorktree | src/workspaces/workspace-manager.ts:384-408 | accepts exactly a worktree with this branch, lock, complete markers, the persisted base and a descending head |
| WorkspaceManager.Manager.FastForwardLocalBase | src/workspaces/workspace-manager.ts:439-458 | moves the base branch only to a descendant and only under a checkout that accepts it |
| WorkspaceManager.Manager.WriteMarker | src/workspaces/workspace-manager.ts:378-382 | the three markers in order |
| WorkspaceManager.Manager.VerifyOwnedWorkspace | src/workspaces/workspace-manager.ts:268-300 | a head is returned exactly for a registered, owned and reusable worktree whose head is the head of the task's branch |
| WorkspaceManager.Manager.PushTaskBranch | src/workspaces/workspace-manager.ts:217-240 | only the owned worktree's own head is pushed; the push creates or fast-forwards the remote branch and never rewrites it, and an accepted answer means it contained the commit at the last look |
| Glob.GlobToRegExp | src/execution/diff-policy.ts:69-86 | the loop emits the pieces of the glob in order between anchors |
| Glob.CompiledParses | src/execution/diff-policy.ts:69-86 | the emitted source reads back, by a grammar of regular expressions, as one expression per piece |
| Glob.RegexMeansGlob | src/execution/diff-policy.ts:64-68 | that expression matches a path exactly when the direct matcher accepts it |
| Glob.CompilerPreservesMeaning | src/execution/diff-policy.ts:64-86 | the compiled source is well formed and accepts exactly the paths the glob accepts |
| Glob.NameAnywhere | src/execution/diff-policy.ts:64-68 | on one-line paths a name behind any directories is accepted exactly as the last segment |
| Glob.EverythingBelow | src/execution/diff-policy.ts:64-68 | on one-line paths a directory followed by two stars accepts exactly the paths below it |
| Glob.StarWithin | src/execution/diff-policy.ts:77-78 | a star between plain texts stands for exactly the texts without a slash |
| Glob.MarkWithin | src/execution/diff-policy.ts:79-80 | a question mark between plain texts stands for exactly one character that is no slash |
| StableJson.WrittenDetermines | src/repositories/task.repository.ts:27-34 | the printing without sorting is injective, strings and numbers included |
| StableJson.EqualTextsAreSame | src/repositories/task.repository.ts:27-34 | equal texts mean equal values up to key order at every depth, whatever the comparison of keys says |
| StableJson.PrintingIsCanonical | src/repositories/task.repository.ts:27-34 | for a value in which no two keys of one object tie, another prints as it does if and only if it is equal up to key order |
| StableJson.PrintsOneWayExactlyWithoutTies | src/repositories/task.repository.ts:27-34 | everything equal to a value up to key order prints as it does, if and only if no two keys of one object inside it tie |
| StableJson.CanonicalExactlyWhenKeysNeverTie | src/repositories/task.repository.ts:30-30 | the printing is canonical on all values if and only if the key order never ties two different keys |
| StableJson.TiedKeysAreNotCanonical | src/repositories/task.repository.ts:30-30 | two tied keys give equal objects that print differently |
| StableJson.SameHeadsDecidesEquality | src/execution/stages/stage-support.ts:97-99 | vectors with equal texts are equal, and equal vectors have equal texts where no two repository names in them tie |
| StableJson.VectorsCompareExactlyWithoutTies | src/execution/stages/stage-support.ts:97-99 | two listings of one vector compare equal, whatever their order, if and only if no two repository names in it tie |
| DiffParsing.ParseRawDiff | src/execution/workspace-changes.ts:14-25 | the loop returns the entries of the field pairs up to the first that is no header |
| DiffParsing.ParseNumstat | src/execution/workspace-changes.ts:28-39 | the loop returns the counts of the records that parse, the last one winning |
| DiffParsing.ParseAddedLines | src/execution/workspace-changes.ts:42-65 | the loop scans the lines with the specified state |
| DiffParsing.RawRoundTrip | src/execution/workspace-changes.ts:14-25 | parsing a printed raw listing returns its paths, statuses and modes, for any paths without NUL |
| DiffParsing.NumstatRoundTrip | src/execution/workspace-changes.ts:28-39 | parsing printed counts returns them, for any paths without NUL, tabs and newlines included |
| DiffParsing.PatchRoundTrip | src/execution/workspace-changes.ts:42-65 | parsing a printed patch returns exactly its added lines with paths and new line numbers, even when their text looks like a header |
| CircuitBreaker.BreakerOkInEveryRun | src/providers/circuit-breaker.ts:48-91 | under any interleaving at most one probe is in flight and the flag says so, closed means failures to spare, open means a reopen time |
| CircuitBreaker.NoStartWhileOpen | src/providers/circuit-breaker.ts:48-56 | in every run a call starts only while closed, or as the only probe once the reopen time has come |
| CircuitBreaker.OpenStaysShut | src/providers/circuit-breaker.ts:49-53 | until its reopen time an open circuit admits nothing while no call ends |
| CircuitBreaker.HeldExactlyWhileShut | src/providers/circuit-breaker.ts:48-56 | somebody who only waits is let in before a time if and only if the circuit is not held shut until then |
| CircuitBreaker.LetInEarlyExactlyWhenLoosened | src/providers/circuit-breaker.ts:57-80 | over any run from an open circuit that ends before its reopen time, a call can be let in early if and only if a running call succeeded, the probe ended uncounted, or a counted failure opened the circuit with an earlier time while no other call was the probe |
| CircuitBreaker.EarlyExactlyWhileSomethingRuns | src/providers/circuit-breaker.ts:57-80 | some run undercuts a reopen time if and only if a call is running when it is set |
| CircuitBreaker.LateFailureShortensHint | src/providers/circuit-breaker.ts:65-70 | a concrete interleaving in which a late failure replaces a hinted reopen time by an earlier one |
| CircuitBreaker.LateSuccessDropsHint | src/providers/circuit-breaker.ts:57-61 | a concrete interleaving in which a late success lets a call in at once although a later time was hinted |
| CircuitBreaker.SuccessClears | src/providers/circuit-breaker.ts:57-61 | a success closes the circuit and forgets every failure |
| CircuitBreaker.CountedFailureDecides | src/providers/circuit-breaker.ts:62-70 | a counted failure is one more in a row and opens the circuit exactly when it is the probe's, hints at a later time, or reaches the threshold, until that time or after the pause |
| CircuitBreaker.UncountedFailureDecides | src/providers/circuit-breaker.ts:71-75 | any other error closes the circuit for a probe and changes nothing otherwise |
| CircuitBreaker.CountsFailuresInARow | src/providers/circuit-breaker.ts:57-80 | in every run the breaker counts exactly the failures since the last success |
| CircuitBreaker.ProviderBreaker.Start | src/providers/circuit-breaker.ts:48-56 | the fields change as specified; an answer means admission and tells whether the call is the probe |
| CircuitBreaker.ProviderBreaker.Finish | src/providers/circuit-breaker.ts:57-61 | the fields change as specified for a call that returned |
| CircuitBreaker.ProviderBreaker.FinishWithError | src/providers/circuit-breaker.ts:62-80 | the fields change as specified for a call that threw |

## Left out

- HTTP server, logging, metrics, retention, backup, credential checks and the load test: input and output without invariants.
- PostgreSQL: transactions are atomic, the claim lock serialises claims, and rows locked by others are a parameter of a claim and of a recovery pass; the database clock and the workers' clocks are one clock that never goes back.
- GitHub, Linear and the Git remote: only what they promise; a listing shows every write made before it, GitHub refuses a second open pull request for one head and base, and a write may succeed without its answer arriving.
- Agents, quality commands, prompts and model routing: their results are inputs, and an agent may touch only the task's worktrees.
- Field validation and the planning schema apart from its dependency check; the comparison of Linear relations is not part of this model.
- Timers in the scheduler: heartbeats, polls and aborts are steps that may happen at any time; the claim loop over lanes and the lane holds are not modelled, and the work offered to a claim is what the schedule permits at that moment rather than up to one polling interval earlier.
- One holder's boundary checks and handler run end before the next claim of the same task (`ExecutionRuns.TableEnabled`), because leases carry no epoch; both may outlive the lease and finish before that, so a former holder's releasing transition can reach a row that nobody holds, but the state it asks to resume in is the one the row still has.
- Branches of a task only go forward: other people commit to them at any moment, but somebody who resets one is not modelled.
- In `ExecutionRuns` what a handler's check of the heads finds is an input of the run, so it may miss a commit or report one that nobody made; the methods of `ExecutionStages` compare the heads that are there.
- Message texts, reasons, evidence and usage.
- Scheduler.TaskRunner.ApplyOutcome: the error text an outcome stores on the row is not tracked, because no decision depends on it.
- Scheduler.TaskRunner.FailTask: the error text stored on the handed-over row is not tracked, because no decision depends on it.
- The three lease columns are one value, set and cleared together as every statement of the repository does.
- Dependencies are fixed and fully persisted; a blocker that fails to persist after a contract change is not modelled.
- ExecutionStages.Handlers.RestoreAll: a crash between two worktrees of one restore is not a state of its own; every write-enabled run restores again before it starts.
- ExecutionStages.Handlers.Deliver: content verification before the push and how a pull request is found or created are inputs of the run; pushes, pull requests and comments are modelled in `Delivery`.
- Delivery.DeliveryProcess.PushReviewed: the checks of the worktree before a push are those of `WorkspaceManager.Manager.PushTaskBranch` and not repeated.
- Delivery.NothingIsDuplicated: an unanswered write has either happened or not when its process ends; one that reaches GitHub only after a later run has acted is not modelled.
- Observation.PendingChecksTimeOut: a merged pull request whose merge commit is never reported stays unverified without a timeout, as in the code.
- Attachments of pull request links to Linear issues: Linear keys them by issue and address, so a repetition changes nothing.
- Workspace.FavourableRunSucceeds: a directory left by a crash inside `git worktree add` itself is refused, as in the code, and not repaired.
- WorkspaceManager.Manager.VerifyOwnedWorkspace: the check that the worktree's Git directory is the clone's is left out, because it compares resolved file-system paths only.
- Removal of finished worktrees, and the commit and restore commands inside a worktree.
- Glob.RegexMeansGlob: characters are Unicode scalar values, while the compiled expression has no Unicode flag, so there `?`, `.` and `[^/]` match one UTF-16 code unit; the two differ on paths with characters outside the basic plane.
- Lone surrogates in strings and number formatting: characters are Unicode scalar values and a number is the text the runtime prints for it.
- Quoted paths in patches, the tab Git adds after a path with white space, and daylight saving in the schedule.
- Secrets, size limits and the remaining rules of the diff policy; review summaries, which decide nothing.
