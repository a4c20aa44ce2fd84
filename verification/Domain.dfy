/** Task states, the legal transition graph, and claim lanes. */
module Domain {
  datatype TaskState =
    | Queued | Analyzing | Ready | Implementing | Testing | Fixing | Reviewing
    | PrCreated | WaitingCi | ReadyForHumanReview
    | PausedSchedule | PausedLimit
    | Blocked | Failed | Completed | Cancelled

  datatype PauseReason = OperatingHoursEnded | UsageLimit | CodexUsageLimit | RateLimit | RemoteUnavailable

  datatype AttemptCounter = ImplementationAttempts | QualityFixAttempts | ReviewAttempts

  datatype ClaimLane = ExecutionLane | DeliveryLane

  const TERMINAL_STATES: set<TaskState> := {Completed, Cancelled}

  const DELIVERY_STATES: set<TaskState> := {PrCreated, WaitingCi, ReadyForHumanReview}

  function ClaimLaneOf(state: TaskState): ClaimLane {
    if state in DELIVERY_STATES then DeliveryLane else ExecutionLane
  }

  function TransitionMap(from: TaskState): set<TaskState> {
    match from
    case Queued => {Analyzing, Blocked}
    case Analyzing => {Ready, Blocked, PausedLimit, PausedSchedule}
    case Ready => {Implementing, Blocked, PausedSchedule}
    case Implementing => {Testing, Ready, Fixing, PausedLimit, PausedSchedule, Blocked, Failed}
    case Testing => {Reviewing, Fixing, PausedSchedule, Blocked, Failed}
    case Fixing => {Testing, PausedLimit, PausedSchedule, Blocked, Failed}
    case Reviewing => {PrCreated, Fixing, PausedLimit, PausedSchedule, Blocked, Failed}
    case PrCreated => {WaitingCi, Blocked}
    case WaitingCi => {ReadyForHumanReview, Blocked}
    case ReadyForHumanReview => {Completed, WaitingCi, Blocked}
    case PausedSchedule => {Analyzing, Ready, Implementing, Testing, Fixing, Reviewing, Blocked}
    case PausedLimit => {Analyzing, Implementing, Fixing, Reviewing, Blocked}
    case Blocked => {Queued}
    case Failed => {Queued, Blocked}
    case Completed => {}
    case Cancelled => {}
  }

  predicate CanCancel(state: TaskState) {
    state !in TERMINAL_STATES
  }

  predicate CanTransition(from: TaskState, to: TaskState) {
    to in TransitionMap(from) || (to == Cancelled && CanCancel(from))
  }

  predicate IsPause(state: TaskState) {
    state in {PausedSchedule, PausedLimit}
  }
}
