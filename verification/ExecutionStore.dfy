/**
 What the handlers of one task leave behind: branches, checkpoints, attempts and work units, and the single durable
 effects that change them. A crash, or somebody else's commit on a branch, can fall between any two effects.
 */
module ExecutionStore {
  import opened Wrappers
  import opened Domain
  import opened Commits
  import Observation

  /** A commit vector: one head for every repository of the task. */
  type Heads = map<Repository, Commit>

  datatype Implementation = Implementation(attempt: nat, commits: Heads)

  datatype FixRequest = FixRequest(id: RequestId, heads: Heads)

  datatype Checkpoints = Checkpoints(
    /** The digest of the contract whose analysis was accepted. */
    analysis: Option<string>,
    setup: Option<Heads>,
    implementation: Option<Implementation>,
    /** The implementation attempt that was rejected last. */
    rejected: Option<nat>,
    qualityPassed: Option<Heads>,
    fixRequest: Option<FixRequest>,
    fixApplied: Option<RequestId>,
    reviewApproved: Option<Heads>)

  /** Durable facts of the past, in the order in which they happened. */
  datatype Event =
    /** A write-enabled agent started; `clean` when no worktree held uncommitted changes. */
    | AgentStarted(clean: bool)
    | GateRun(repository: Repository, commit: Commit, passed: bool, clean: bool)
    | QualityRecorded(heads: Heads)
    | ReviewRecorded(heads: Heads)
    | FixRequested(id: RequestId)
    | FixRecorded(id: RequestId)
    | Pushed(repository: Repository, heads: Heads)

  /** Attempt numbers of one stage; true means completed. */
  type Attempts = map<nat, bool>

  datatype Store = Store(
    branches: map<Repository, seq<Commit>>,
    dirty: set<Repository>,
    checkpoints: Checkpoints,
    attempts: map<TaskState, Attempts>,
    rows: map<Repository, Observation.UnitRow>,
    events: seq<Event>,
    /** The next identity of the orchestrator's own commits, and of everybody else's. */
    nextCommit: nat,
    nextForeign: nat)
  {
    predicate Prepared(units: seq<Repository>) {
      && (forall i :: 0 <= i < |units| ==> units[i] in branches && units[i] in rows)
      && (forall unit :: unit in branches ==> |branches[unit]| > 0)
    }

    function Head(unit: Repository): Commit
      requires unit in branches && |branches[unit]| > 0
    {
      branches[unit][|branches[unit]| - 1]
    }

    function AttemptsOf(stage: TaskState): Attempts {
      if stage in attempts then attempts[stage] else map[]
    }
  }

  /** The current head of every unit. */
  function HeadsOf(store: Store, units: seq<Repository>): Heads
    requires store.Prepared(units)
  {
    map unit | unit in units :: store.Head(unit)
  }

  // ------------------------------------------------------------------ attempts

  lemma {:induction false} LatestExists(numbers: set<nat>) returns (n: nat)
    requires numbers != {}
    ensures n in numbers && forall m :: m in numbers ==> m <= n
  {
    var first :| first in numbers;
    if numbers == {first} {
      n := first;
    } else {
      var rest := LatestExists(numbers - {first});
      n := if first < rest then rest else first;
    }
    assert forall m :: m in numbers ==> m == first || m in numbers - {first};
  }

  lemma LatestAttemptExists(attempts: Attempts)
    requires attempts != map[]
    ensures exists n :: n in attempts && forall m :: m in attempts ==> m <= n
  {
    var some :| some in attempts;
    var n := LatestExists(attempts.Keys);
    assert n in attempts;
  }

  /** The largest attempt number, 0 when there is none. */
  function Latest(attempts: Attempts): (n: nat)
    ensures attempts == map[] ==> n == 0
    ensures attempts != map[] ==> n in attempts
    ensures forall m :: m in attempts ==> m <= n
  {
    if attempts == map[] then 0
    else
      LatestAttemptExists(attempts);
      var n :| n in attempts && forall m :: m in attempts ==> m <= n;
      n
  }

  /** The attempt a stage runs under: an open one is reused, otherwise the next number is opened. */
  function NextAttempt(attempts: Attempts): nat {
    var latest := Latest(attempts);
    if latest in attempts && !attempts[latest] then latest else latest + 1
  }

  /** Attempt numbers are 1 to n, and all but the last are completed. */
  ghost predicate AttemptsInOrder(attempts: Attempts) {
    exists n: nat :: NumberedTo(attempts, n)
  }

  ghost predicate NumberedTo(attempts: Attempts, n: nat) {
    && (forall m :: m in attempts <==> 1 <= m <= n)
    && (forall m :: m in attempts && m < n ==> attempts[m])
  }

  lemma NumberedLatest(attempts: Attempts, n: nat)
    requires NumberedTo(attempts, n)
    ensures Latest(attempts) == n
  {
    assert n > 0 ==> n in attempts;
    if attempts != map[] {
      var m :| m in attempts;
    }
  }

  // ------------------------------------------------------------------ effects

  datatype Effect =
    | Restore
    | StartAttempt(stage: TaskState)
    | CompleteAttempt(stage: TaskState, attempt: nat)
    | RunSetup(touched: set<Repository>)
    | RunAgent(writes: bool, touched: set<Repository>)
    | ForeignMove(repository: Repository)
    | RunGate(repository: Repository, passed: bool)
    | MakeCommit(repository: Repository, commit: Commit)
    | SaveAnalysis(digest: string)
    | SaveSetup(heads: Heads)
    | SaveImplementation(implementation: Implementation)
    | SaveRejection(number: nat)
    | SaveQuality(heads: Heads)
    | SaveFixRequest(request: FixRequest)
    | SaveFixApplied(id: RequestId)
    | SaveReview(heads: Heads)
    | Push(repository: Repository, heads: Heads)
    | RecordUnit(repository: Repository, row: Observation.UnitRow)

  function Logged(store: Store, event: Event): Store {
    store.(events := store.events + [event])
  }

  function Appended(store: Store, unit: Repository, commit: Commit): Store
    requires unit in store.branches
  {
    store.(branches := store.branches[unit := store.branches[unit] + [commit]], nextCommit := commit.id + 1)
  }

  function Intruded(store: Store, unit: Repository): Store
    requires unit in store.branches
  {
    store.(branches := store.branches[unit := store.branches[unit] + [Commit(store.nextForeign, ForeignCommit)]],
           nextForeign := store.nextForeign + 1)
  }

  function Apply(store: Store, effect: Effect): Store {
    match effect
    case Restore => store.(dirty := {})
    case StartAttempt(stage) =>
      var n := NextAttempt(store.AttemptsOf(stage));
      store.(attempts := store.attempts[stage := store.AttemptsOf(stage)[n := false]])
    case CompleteAttempt(stage, attempt) =>
      store.(attempts := store.attempts[stage := store.AttemptsOf(stage)[attempt := true]])
    case RunSetup(touched) => store.(dirty := store.dirty + touched)
    case RunAgent(writes, touched) =>
      (if writes then Logged(store, AgentStarted(store.dirty == {})) else store).(dirty := store.dirty + touched)
    case ForeignMove(unit) =>
      if unit in store.branches then Intruded(store, unit) else store
    case RunGate(unit, passed) =>
      if unit in store.branches && |store.branches[unit]| > 0 then
        Logged(store, GateRun(unit, store.Head(unit), passed, unit !in store.dirty)).(dirty := store.dirty + {unit})
      else store
    case MakeCommit(unit, commit) =>
      if unit in store.branches then Appended(store, unit, commit).(dirty := store.dirty - {unit}) else store
    case SaveAnalysis(digest) => store.(checkpoints := store.checkpoints.(analysis := Some(digest)))
    case SaveSetup(heads) => store.(checkpoints := store.checkpoints.(setup := Some(heads)))
    case SaveImplementation(implementation) =>
      store.(checkpoints := store.checkpoints.(implementation := Some(implementation)))
    case SaveRejection(number) => store.(checkpoints := store.checkpoints.(rejected := Some(number)))
    case SaveQuality(heads) =>
      Logged(store, QualityRecorded(heads)).(checkpoints := store.checkpoints.(qualityPassed := Some(heads)))
    case SaveFixRequest(request) =>
      Logged(store, FixRequested(request.id)).(checkpoints := store.checkpoints.(fixRequest := Some(request)))
    case SaveFixApplied(id) =>
      Logged(store, FixRecorded(id)).(checkpoints := store.checkpoints.(fixApplied := Some(id)))
    case SaveReview(heads) =>
      Logged(store, ReviewRecorded(heads)).(checkpoints := store.checkpoints.(reviewApproved := Some(heads)))
    case Push(unit, heads) => Logged(store, Pushed(unit, heads))
    case RecordUnit(unit, row) => store.(rows := store.rows[unit := row])
  }

  function ApplyAll(store: Store, effects: seq<Effect>): Store {
    if |effects| == 0 then store
    else Apply(ApplyAll(store, effects[..|effects| - 1]), effects[|effects| - 1])
  }

  lemma ApplyNext(store: Store, effects: seq<Effect>, effect: Effect)
    ensures ApplyAll(store, effects + [effect]) == Apply(ApplyAll(store, effects), effect)
  {
    assert (effects + [effect])[..|effects|] == effects;
  }

  lemma {:induction false} ApplyJoined(store: Store, first: seq<Effect>, second: seq<Effect>)
    ensures ApplyAll(store, first + second) == ApplyAll(ApplyAll(store, first), second)
  {
    if |second| == 0 {
      assert first + second == first;
    } else {
      assert (first + second)[..|first + second| - 1] == first + second[..|second| - 1];
      ApplyJoined(store, first, second[..|second| - 1]);
    }
  }
}
