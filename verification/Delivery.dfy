/**
 Crash-safe delivery: the process that delivers one task, the operation rows it keeps, GitHub, Linear, and the people
 who use them. Every durable or external effect is one step; a crash can fall between any two, and people act at any
 time. At most one process works on the task at a time, and a listing shows every write that was made before it.
 */
module Delivery {
  import opened Wrappers

  type Repository = string

  type Commit = nat

  datatype OperationKey =
    | PushKey(repository: Repository, head: Commit)
    | PullRequestKey(repository: Repository)
    | CommentKey(event: string)

  datatype Status = Pending | Succeeded(response: nat)

  datatype PullRequest = PullRequest(
    number: nat,
    ours: bool,
    open: bool,
    merged: bool,
    base: string,
    /** The head still contains the reviewed commit, on the branch of the work unit. */
    intact: bool)

  /** A branch as the commits on it, the last one apart. */
  datatype Branch = Branch(earlier: seq<Commit>, head: Commit) {
    predicate Contains(commit: Commit) {
      commit == head || commit in earlier
    }

    /** Git accepts an unforced push of `newer` onto this branch. */
    predicate FastForwards(newer: Branch) {
      earlier + [head] <= newer.earlier + [newer.head]
    }
  }

  datatype Comment = Comment(id: nat, ours: Option<string>, mentions: set<string>)

  datatype World = World(
    /** Task branches on the remote. */
    remote: map<Repository, Branch>,
    pullRequests: map<Repository, seq<PullRequest>>,
    comments: seq<Comment>,
    operations: map<OperationKey, Status>,
    /** Pull request numbers recorded on the work units. */
    recorded: map<Repository, nat>)

  function Listed(world: World, repository: Repository): seq<PullRequest> {
    if repository in world.pullRequests then world.pullRequests[repository] else []
  }

  // ------------------------------------------------------------------ reconciliation

  /** Those that satisfy a test, in order. */
  function Those(pullRequests: seq<PullRequest>, test: PullRequest -> bool): (found: seq<PullRequest>)
    ensures forall i :: 0 <= i < |found| ==> found[i] in pullRequests && test(found[i])
  {
    if |pullRequests| == 0 then []
    else
      var last := pullRequests[|pullRequests| - 1];
      Those(pullRequests[..|pullRequests| - 1], test) + if test(last) then [last] else []
  }

  function Open(pullRequests: seq<PullRequest>): seq<PullRequest> {
    Those(pullRequests, (pullRequest: PullRequest) => pullRequest.open)
  }

  function Merged(pullRequests: seq<PullRequest>): seq<PullRequest> {
    Those(pullRequests, (pullRequest: PullRequest) => pullRequest.merged)
  }

  datatype Reconciliation = NothingListed | Existing(number: nat) | NeedsOperator

  predicate Verifies(pullRequest: PullRequest, base: string, recorded: Option<nat>) {
    && (recorded.Some? ==> recorded.value == pullRequest.number)
    && pullRequest.base == base
  }

  /** Finds the existing pull request of a branch; closed, duplicated, retargeted or rewritten ones need an operator. */
  function Reconcile(pullRequests: seq<PullRequest>, base: string, recorded: Option<nat>): (result: Reconciliation)
    ensures result.NothingListed? <==> pullRequests == [] && recorded.None?
    ensures result.Existing? ==> exists i ::
      && 0 <= i < |pullRequests| && pullRequests[i].number == result.number && pullRequests[i].intact
      && (pullRequests[i].open || pullRequests[i].merged) && pullRequests[i].base == base
    ensures result.Existing? && recorded.Some? ==> result.number == recorded.value
  {
    var open, merged := Open(pullRequests), Merged(pullRequests);
    if |open| > 1 then NeedsOperator
    else if |open| == 0 && |merged| != 1 then
      if |merged| > 1 || |pullRequests| > 0 || recorded.Some? then NeedsOperator else NothingListed
    else
      var candidate := if |open| == 1 then open[0] else merged[0];
      if Verifies(candidate, base, recorded) && candidate.intact then Existing(candidate.number) else NeedsOperator
  }

  lemma {:induction false} NoneOfThose(pullRequests: seq<PullRequest>, test: PullRequest -> bool)
    requires forall i :: 0 <= i < |pullRequests| ==> !test(pullRequests[i])
    ensures Those(pullRequests, test) == []
  {
    if |pullRequests| > 0 {
      NoneOfThose(pullRequests[..|pullRequests| - 1], test);
    }
  }

  lemma {:induction false} OnlyOneOfThose(pullRequests: seq<PullRequest>, test: PullRequest -> bool, only: nat)
    requires only < |pullRequests|
    requires forall i :: 0 <= i < |pullRequests| ==> (test(pullRequests[i]) <==> i == only)
    ensures Those(pullRequests, test) == [pullRequests[only]]
  {
    var shorter := pullRequests[..|pullRequests| - 1];
    if only == |pullRequests| - 1 {
      NoneOfThose(shorter, test);
    } else {
      OnlyOneOfThose(shorter, test, only);
    }
  }

  lemma {:induction false} SomeOfThose(pullRequests: seq<PullRequest>, test: PullRequest -> bool, some: nat)
    requires some < |pullRequests| && test(pullRequests[some])
    ensures |Those(pullRequests, test)| >= 1
  {
    var shorter := pullRequests[..|pullRequests| - 1];
    if some < |pullRequests| - 1 {
      SomeOfThose(shorter, test, some);
    }
  }

  lemma {:induction false} TwoOfThose(pullRequests: seq<PullRequest>, test: PullRequest -> bool, one: nat, other: nat)
    requires one < other < |pullRequests| && test(pullRequests[one]) && test(pullRequests[other])
    ensures |Those(pullRequests, test)| >= 2
  {
    var shorter := pullRequests[..|pullRequests| - 1];
    if other < |pullRequests| - 1 {
      TwoOfThose(shorter, test, one, other);
    } else {
      SomeOfThose(shorter, test, one);
    }
  }

  /** The one to be adopted: the only open one, or the only merged one while none is open. */
  predicate Sole(pullRequests: seq<PullRequest>, i: nat) {
    && i < |pullRequests|
    && if pullRequests[i].open then
         forall k :: 0 <= k < |pullRequests| && pullRequests[k].open ==> k == i
       else
         && pullRequests[i].merged
         && forall k :: 0 <= k < |pullRequests| ==> !pullRequests[k].open && (pullRequests[k].merged ==> k == i)
  }

  /** On its base, still with the reviewed commit, and with the recorded number if one is recorded. */
  predicate AsRecorded(pullRequest: PullRequest, base: string, recorded: Option<nat>) {
    pullRequest.base == base && pullRequest.intact && (recorded.None? || recorded.value == pullRequest.number)
  }

  /** The sole pull request is adopted exactly when it is as recorded; otherwise an operator is needed. */
  lemma SoleIsAdopted(pullRequests: seq<PullRequest>, base: string, recorded: Option<nat>, i: nat)
    requires Sole(pullRequests, i)
    ensures Reconcile(pullRequests, base, recorded)
         == if AsRecorded(pullRequests[i], base, recorded) then Existing(pullRequests[i].number) else NeedsOperator
  {
    var isOpen := (pullRequest: PullRequest) => pullRequest.open;
    var isMerged := (pullRequest: PullRequest) => pullRequest.merged;
    if pullRequests[i].open {
      OnlyOneOfThose(pullRequests, isOpen, i);
      assert Open(pullRequests) == [pullRequests[i]];
    } else {
      NoneOfThose(pullRequests, isOpen);
      OnlyOneOfThose(pullRequests, isMerged, i);
      assert Open(pullRequests) == [] && Merged(pullRequests) == [pullRequests[i]];
    }
  }

  /** Without a sole candidate nothing is adopted: an operator is needed unless nothing is listed or recorded. */
  lemma NoSoleNoneAdopted(pullRequests: seq<PullRequest>, base: string, recorded: Option<nat>)
    requires forall i :: 0 <= i < |pullRequests| ==> !Sole(pullRequests, i)
    ensures Reconcile(pullRequests, base, recorded)
         == if pullRequests == [] && recorded.None? then NothingListed else NeedsOperator
  {
    var isOpen := (pullRequest: PullRequest) => pullRequest.open;
    var isMerged := (pullRequest: PullRequest) => pullRequest.merged;
    if exists i :: 0 <= i < |pullRequests| && pullRequests[i].open {
      var i :| 0 <= i < |pullRequests| && pullRequests[i].open;
      assert !Sole(pullRequests, i);
      var k :| 0 <= k < |pullRequests| && pullRequests[k].open && k != i;
      TwoOfThose(pullRequests, isOpen, if i < k then i else k, if i < k then k else i);
      assert |Open(pullRequests)| >= 2;
    } else {
      NoneOfThose(pullRequests, isOpen);
      assert Open(pullRequests) == [];
      if exists i :: 0 <= i < |pullRequests| && pullRequests[i].merged {
        var i :| 0 <= i < |pullRequests| && pullRequests[i].merged;
        assert !Sole(pullRequests, i);
        var k :| 0 <= k < |pullRequests| && pullRequests[k].merged && k != i;
        TwoOfThose(pullRequests, isMerged, if i < k then i else k, if i < k then k else i);
        assert |Merged(pullRequests)| >= 2;
      } else {
        NoneOfThose(pullRequests, isMerged);
        assert Merged(pullRequests) == [];
      }
    }
  }

  // ------------------------------------------------------------------ the process and its steps

  datatype Pc =
    | Idle
    | BeginningPush(repository: Repository, branch: Branch)
    | Looking(repository: Repository, branch: Branch)
    | Pushing(repository: Repository, branch: Branch)
    | LookingAgain(repository: Repository, branch: Branch)
    | Inspecting(repository: Repository, head: Commit)
    | Reconciling(repository: Repository)
    | Found(repository: Repository, number: nat)
    | Missing(repository: Repository)
    | Creating(repository: Repository)
    | Completing(key: OperationKey, response: nat)
    | Recording(repository: Repository, number: nat)
    | BeginningComment(event: string)
    | ReadingComments(event: string)
    | Posting(event: string)

  datatype State = State(world: World, pc: Pc, holding: bool)

  datatype Step =
    // the process
    | StartPush(repository: Repository, branch: Branch)
    | LookAtRemote
    | PushBranch(lost: bool)
    | InspectRemote
    | StartDelivery(repository: Repository)
    | StartComment(event: string)
    | ListPullRequests
    | BeginOperation
    | CreatePullRequest(number: nat, lost: bool)
    | ListComments
    | CreateComment(id: nat, lost: bool)
    | CompleteOperation
    | RecordNumber
    // anything that ends the process: a crash, an error, a lost lease noticed
    | Stop
    | LoseLease
    // people
    | RewriteRemote(repository: Repository, rewritten: Option<Branch>)
    | ClosePullRequest(repository: Repository, i: nat)
    | MergePullRequest(repository: Repository, i: nat)
    | ReopenPullRequest(repository: Repository, i: nat)
    | RewritePullRequest(repository: Repository, i: nat, base: string)
    | OpenForeign(repository: Repository, number: nat, base: string)
    | PostForeign(id: nat, mentions: set<string>)

  /** GitHub refuses a second open pull request for one head and base. */
  predicate Refuses(world: World, repository: Repository, base: string) {
    var listed := Listed(world, repository);
    exists i :: 0 <= i < |listed| && listed[i].open && listed[i].base == base
  }

  function Added(world: World, repository: Repository, pullRequest: PullRequest): World {
    world.(pullRequests := world.pullRequests[repository := Listed(world, repository) + [pullRequest]])
  }

  function Changed(world: World, repository: Repository, i: nat, pullRequest: PullRequest): World
    requires i < |Listed(world, repository)|
  {
    world.(pullRequests := world.pullRequests[repository := Listed(world, repository)[i := pullRequest]])
  }

  /** Records the intent of an effect, unless a row exists. */
  function Begun(world: World, key: OperationKey): World {
    if key in world.operations then world else world.(operations := world.operations[key := Pending])
  }

  predicate HasSucceeded(world: World, key: OperationKey) {
    key in world.operations && world.operations[key].Succeeded?
  }

  predicate IsPending(world: World, key: OperationKey) {
    key in world.operations && world.operations[key].Pending?
  }

  function RecordedNumber(world: World, repository: Repository): Option<nat> {
    if repository in world.recorded then Some(world.recorded[repository]) else None
  }

  function AfterBegin(state: State, base: string): State {
    match state.pc
    case BeginningPush(repository, branch) =>
      var world := Begun(state.world, PushKey(repository, branch.head));
      State(world,
            if HasSucceeded(world, PushKey(repository, branch.head)) then Inspecting(repository, branch.head)
            else Looking(repository, branch),
            state.holding)
    case Found(repository, number) =>
      var world := Begun(state.world, PullRequestKey(repository));
      if HasSucceeded(world, PullRequestKey(repository)) then State(world, Recording(repository, number), state.holding)
      else State(world, Completing(PullRequestKey(repository), number), state.holding)
    case Missing(repository) =>
      // A recorded success whose pull request is not listed needs an operator.
      var world := Begun(state.world, PullRequestKey(repository));
      State(world, if HasSucceeded(world, PullRequestKey(repository)) then Idle else Creating(repository),
            state.holding)
    case BeginningComment(event) =>
      var key := CommentKey(event);
      State(Begun(state.world, key),
        if key !in state.world.operations then Posting(event)
        else if HasSucceeded(state.world, key) then Idle
        else ReadingComments(event),
        state.holding)
    case _ => state
  }

  function FirstMention(comments: seq<Comment>, event: string): Option<nat> {
    if |comments| == 0 then None
    else
      var earlier := FirstMention(comments[..|comments| - 1], event);
      var last := comments[|comments| - 1];
      if earlier.Some? then earlier else if event in last.mentions then Some(last.id) else None
  }

  /** Where the process stands once an operation is completed. */
  function AfterCompletion(key: OperationKey, response: nat): Pc {
    match key
    case PushKey(repository, head) => Inspecting(repository, head)
    case PullRequestKey(repository) => Recording(repository, response)
    case CommentKey(_) => Idle
  }

  /** What is done after a look at the remote branch: only an absent branch is pushed. */
  function AfterLook(world: World, pc: Pc): Pc
    requires pc.Looking? || pc.LookingAgain?
  {
    if pc.Looking? then
      if pc.repository in world.remote then
        Completing(PushKey(pc.repository, pc.branch.head), world.remote[pc.repository].head)
      else Pushing(pc.repository, pc.branch)
    else if pc.repository in world.remote && world.remote[pc.repository].head == pc.branch.head then
      Completing(PushKey(pc.repository, pc.branch.head), pc.branch.head)
    else Idle
  }

  /** The remote rejects a push that would drop commits. */
  predicate RejectsPush(world: World, repository: Repository, branch: Branch) {
    repository in world.remote && !world.remote[repository].FastForwards(branch)
  }

  function ProcessStep(state: State, step: Step, base: string): State {
    match step
    case StartPush(repository, branch) =>
      if state.pc.Idle? then State(state.world, BeginningPush(repository, branch), true) else state
    case LookAtRemote =>
      if state.pc.Looking? || state.pc.LookingAgain? then state.(pc := AfterLook(state.world, state.pc)) else state
    case PushBranch(lost) =>
      if !state.pc.Pushing? then state
      else if RejectsPush(state.world, state.pc.repository, state.pc.branch) then state.(pc := Idle)
      else
        State(state.world.(remote := state.world.remote[state.pc.repository := state.pc.branch]),
              if lost then Idle else LookingAgain(state.pc.repository, state.pc.branch), state.holding)
    case InspectRemote => if state.pc.Inspecting? then state.(pc := Idle) else state
    case StartDelivery(repository) =>
      if state.pc.Idle? then State(state.world, Reconciling(repository), true) else state
    case StartComment(event) => if state.pc.Idle? then State(state.world, BeginningComment(event), true) else state
    case ListPullRequests =>
      if !state.pc.Reconciling? then state
      else
        var repository := state.pc.repository;
        (match Reconcile(Listed(state.world, repository), base, RecordedNumber(state.world, repository))
         case NothingListed => state.(pc := Missing(repository))
         case Existing(number) => state.(pc := Found(repository, number))
         case NeedsOperator => state.(pc := Idle))
    case BeginOperation => AfterBegin(state, base)
    case CreatePullRequest(number, lost) =>
      if !state.pc.Creating? then state
      else if Refuses(state.world, state.pc.repository, base) then state.(pc := Idle)
      else
        var repository := state.pc.repository;
        State(Added(state.world, repository, PullRequest(number, true, true, false, base, true)),
              if lost then Idle else Completing(PullRequestKey(repository), number), state.holding)
    case ListComments =>
      if !state.pc.ReadingComments? then state
      else
        var existing := FirstMention(state.world.comments, state.pc.event);
        state.(pc := if existing.Some? then Completing(CommentKey(state.pc.event), existing.value)
                     else Posting(state.pc.event))
    case CreateComment(id, lost) =>
      if !state.pc.Posting? then state
      else
        var event := state.pc.event;
        State(state.world.(comments := state.world.comments + [Comment(id, Some(event), {event})]),
              if lost then Idle else Completing(CommentKey(event), id), state.holding)
    case CompleteOperation =>
      if !state.pc.Completing? then state
      else if !state.holding || state.pc.key !in state.world.operations then state.(pc := Idle)
      else
        var world := state.world.(operations := state.world.operations[state.pc.key := Succeeded(state.pc.response)]);
        State(world, AfterCompletion(state.pc.key, state.pc.response), true)
    case RecordNumber =>
      if !state.pc.Recording? then state
      else if !state.holding then state.(pc := Idle)
      else State(state.world.(recorded := state.world.recorded[state.pc.repository := state.pc.number]), Idle, true)
    case Stop => state.(pc := Idle)
    case LoseLease => state.(holding := false)
    case _ => state
  }

  function PeopleStep(world: World, step: Step, base: string): World {
    match step
    case RewriteRemote(repository, rewritten) =>
      world.(remote := if rewritten.Some? then world.remote[repository := rewritten.value]
                       else world.remote - {repository})
    case ClosePullRequest(repository, i) =>
      if i >= |Listed(world, repository)| then world
      else Changed(world, repository, i, Listed(world, repository)[i].(open := false))
    case MergePullRequest(repository, i) =>
      if i >= |Listed(world, repository)| then world
      else Changed(world, repository, i, Listed(world, repository)[i].(open := false, merged := true))
    case ReopenPullRequest(repository, i) =>
      if i < |Listed(world, repository)| && !Listed(world, repository)[i].merged then
        Changed(world, repository, i, Listed(world, repository)[i].(open := true))
      else world
    case RewritePullRequest(repository, i, newBase) =>
      if i >= |Listed(world, repository)| then world
      else Changed(world, repository, i, Listed(world, repository)[i].(base := newBase, intact := false))
    case OpenForeign(repository, number, foreignBase) =>
      if Refuses(world, repository, foreignBase) then world
      else Added(world, repository, PullRequest(number, false, true, false, foreignBase, true))
    case PostForeign(id, mentions) => world.(comments := world.comments + [Comment(id, None, mentions)])
    case _ => world
  }

  function Next(state: State, step: Step, base: string): State {
    var moved := ProcessStep(state, step, base);
    moved.(world := PeopleStep(moved.world, step, base))
  }

  function NextAll(state: State, steps: seq<Step>, base: string): State {
    if |steps| == 0 then state
    else Next(NextAll(state, steps[..|steps| - 1], base), steps[|steps| - 1], base)
  }

  // ------------------------------------------------------------------ at most one of each

  predicate AtMostOneOurs(pullRequests: seq<PullRequest>) {
    forall i, j :: 0 <= i < j < |pullRequests| ==> !(pullRequests[i].ours && pullRequests[j].ours)
  }

  predicate NoneOurs(pullRequests: seq<PullRequest>) {
    forall i :: 0 <= i < |pullRequests| ==> !pullRequests[i].ours
  }

  predicate AtMostOneComment(comments: seq<Comment>) {
    forall i, j :: 0 <= i < j < |comments| ==> !(comments[i].ours.Some? && comments[i].ours == comments[j].ours)
  }

  predicate NotPosted(comments: seq<Comment>, event: string) {
    forall i :: 0 <= i < |comments| ==> comments[i].ours != Some(event)
  }

  /** What a process may rely on where it stands. */
  predicate PcOk(state: State) {
    match state.pc
    case Looking(repository, branch) => IsPending(state.world, PushKey(repository, branch.head))
    case Pushing(repository, branch) => IsPending(state.world, PushKey(repository, branch.head))
    case LookingAgain(repository, branch) => IsPending(state.world, PushKey(repository, branch.head))
    case Missing(repository) => NoneOurs(Listed(state.world, repository))
    case Creating(repository) =>
      && NoneOurs(Listed(state.world, repository))
      && IsPending(state.world, PullRequestKey(repository))
    case Posting(event) =>
      && NotPosted(state.world.comments, event)
      && IsPending(state.world, CommentKey(event))
    case Completing(key, _) => IsPending(state.world, key)
    case ReadingComments(event) => IsPending(state.world, CommentKey(event))
    case _ => true
  }

  /** Nothing of ours exists twice, and every comment of ours has its operation and can be found. */
  ghost predicate WorldOk(world: World) {
    && (forall repository :: repository in world.pullRequests ==> AtMostOneOurs(world.pullRequests[repository]))
    && AtMostOneComment(world.comments)
    && (forall i :: 0 <= i < |world.comments| && world.comments[i].ours.Some? ==>
          && CommentKey(world.comments[i].ours.value) in world.operations
          && world.comments[i].ours.value in world.comments[i].mentions)
  }

  ghost predicate DeliveryOk(state: State) {
    WorldOk(state.world) && PcOk(state)
  }

  lemma {:induction false} MentionIsFound(comments: seq<Comment>, event: string)
    requires FirstMention(comments, event).None?
    ensures forall i :: 0 <= i < |comments| ==> event !in comments[i].mentions
  {
    if |comments| > 0 {
      MentionIsFound(comments[..|comments| - 1], event);
    }
  }

  lemma BegunKeepsOne(world: World, key: OperationKey)
    requires WorldOk(world)
    ensures WorldOk(Begun(world, key))
  {
  }

  lemma NotBegunNotPosted(world: World, event: string)
    requires WorldOk(world) && CommentKey(event) !in world.operations
    ensures NotPosted(world.comments, event)
  {
  }

  lemma BeginKeepsOne(state: State, base: string)
    requires DeliveryOk(state)
    ensures DeliveryOk(AfterBegin(state, base))
  {
    hide WorldOk;
    var pc := state.pc;
    if pc.BeginningPush? {
      BegunKeepsOne(state.world, PushKey(pc.repository, pc.branch.head));
    } else if pc.BeginningComment? {
      BegunKeepsOne(state.world, CommentKey(pc.event));
      if CommentKey(pc.event) !in state.world.operations {
        NotBegunNotPosted(state.world, pc.event);
      }
    } else if pc.Found? || pc.Missing? {
      BegunKeepsOne(state.world, PullRequestKey(pc.repository));
    }
  }

  lemma CreationKeepsOne(state: State, number: nat, lost: bool, base: string)
    requires DeliveryOk(state)
    ensures DeliveryOk(ProcessStep(state, CreatePullRequest(number, lost), base))
  {
  }

  lemma CommentKeepsOne(state: State, id: nat, lost: bool, base: string)
    requires DeliveryOk(state)
    ensures DeliveryOk(ProcessStep(state, CreateComment(id, lost), base))
  {
  }

  lemma ListingKeepsOne(state: State, base: string)
    requires DeliveryOk(state)
    ensures DeliveryOk(ProcessStep(state, ListComments, base))
  {
    if state.pc.ReadingComments? && FirstMention(state.world.comments, state.pc.event).None? {
      MentionIsFound(state.world.comments, state.pc.event);
    }
  }

  lemma ProcessKeepsOne(state: State, step: Step, base: string)
    requires DeliveryOk(state)
    ensures DeliveryOk(ProcessStep(state, step, base))
  {
    match step
    case BeginOperation => BeginKeepsOne(state, base);
    case CreatePullRequest(number, lost) => CreationKeepsOne(state, number, lost, base);
    case CreateComment(id, lost) => CommentKeepsOne(state, id, lost, base);
    case ListComments => ListingKeepsOne(state, base);
    case _ =>
  }

  lemma PeopleKeepOne(state: State, step: Step, base: string)
    requires DeliveryOk(state)
    ensures DeliveryOk(state.(world := PeopleStep(state.world, step, base)))
  {
  }

  /**
   In every run, with crashes between any two steps, lost responses and people acting at any time: at most one pull
   request of ours per repository, and at most one comment of ours per event.
   */
  lemma {:induction false} NothingIsDuplicated(start: State, steps: seq<Step>, base: string)
    requires DeliveryOk(start)
    ensures DeliveryOk(NextAll(start, steps, base))
  {
    if |steps| > 0 {
      var before := NextAll(start, steps[..|steps| - 1], base);
      NothingIsDuplicated(start, steps[..|steps| - 1], base);
      ProcessKeepsOne(before, steps[|steps| - 1], base);
      PeopleKeepOne(ProcessStep(before, steps[|steps| - 1], base), steps[|steps| - 1], base);
    }
  }

  /**
   A succeeded operation keeps its response, and the effect it stands for does not run again: a push of ours writes only
   heads that have not been recorded as pushed.
   */
  lemma SuccessStep(state: State, step: Step, base: string, key: OperationKey)
    requires DeliveryOk(state) && HasSucceeded(state.world, key)
    ensures var after := Next(state, step, base);
      && HasSucceeded(after.world, key) && after.world.operations[key] == state.world.operations[key]
      && (key.PushKey? && step.PushBranch? && after.world.remote != state.world.remote ==>
            exists repository :: repository in after.world.remote
              && PushKey(repository, after.world.remote[repository].head) != key
              && after.world.remote == state.world.remote[repository := after.world.remote[repository]])
      && (key.PullRequestKey? && step.CreatePullRequest? ==>
            Listed(after.world, key.repository) == Listed(state.world, key.repository))
      && (key.CommentKey? && step.CreateComment? && |after.world.comments| > |state.world.comments| ==>
            after.world.comments[|state.world.comments|].ours != Some(key.event))
  {
  }

  lemma {:induction false} SuccessIsFinal(start: State, steps: seq<Step>, base: string, key: OperationKey)
    requires DeliveryOk(start) && HasSucceeded(start.world, key)
    ensures HasSucceeded(NextAll(start, steps, base).world, key)
    ensures NextAll(start, steps, base).world.operations[key] == start.world.operations[key]
  {
    if |steps| > 0 {
      SuccessIsFinal(start, steps[..|steps| - 1], base, key);
      NothingIsDuplicated(start, steps[..|steps| - 1], base);
      SuccessStep(NextAll(start, steps[..|steps| - 1], base), steps[|steps| - 1], base, key);
    }
  }

  // ------------------------------------------------------------------ a recorded number stays

  /** The number in hand is the recorded one, if one is recorded. */
  predicate Agrees(world: World, repository: Repository, number: nat) {
    repository in world.recorded ==> world.recorded[repository] == number
  }

  /** Wherever the process stands, what it may record next does not contradict what is recorded. */
  predicate PcAgrees(state: State) {
    match state.pc
    case Found(repository, number) => Agrees(state.world, repository, number)
    case Recording(repository, number) => Agrees(state.world, repository, number)
    case Completing(key, number) => key.PullRequestKey? ==> Agrees(state.world, key.repository, number)
    case Missing(repository) => repository !in state.world.recorded
    case Creating(repository) => repository !in state.world.recorded
    case _ => true
  }

  lemma NumberStep(state: State, step: Step, base: string)
    requires PcAgrees(state)
    ensures PcAgrees(Next(state, step, base))
    ensures forall repository :: repository in state.world.recorded ==>
      && repository in Next(state, step, base).world.recorded
      && Next(state, step, base).world.recorded[repository] == state.world.recorded[repository]
  {
    hide Reconcile;
    if state.pc.Reconciling? {
      NumberFound(state, base);
    }
  }

  lemma NumberFound(state: State, base: string)
    requires state.pc.Reconciling?
    ensures var repository := state.pc.repository;
      var result := Reconcile(Listed(state.world, repository), base, RecordedNumber(state.world, repository));
      && (result.Existing? ==> Agrees(state.world, repository, result.number))
      && (result.NothingListed? ==> repository !in state.world.recorded)
  {
  }

  /**
   In every run, with crashes between any two steps and people closing, replacing and rewriting pull requests: the
   number recorded for a repository is never replaced by another.
   */
  lemma {:induction false} RecordedNumberStays(start: State, steps: seq<Step>, base: string)
    requires PcAgrees(start)
    ensures PcAgrees(NextAll(start, steps, base))
    ensures forall repository :: repository in start.world.recorded ==>
      && repository in NextAll(start, steps, base).world.recorded
      && NextAll(start, steps, base).world.recorded[repository] == start.world.recorded[repository]
  {
    hide Next, PcAgrees;
    if |steps| > 0 {
      RecordedNumberStays(start, steps[..|steps| - 1], base);
      NumberStep(NextAll(start, steps[..|steps| - 1], base), steps[|steps| - 1], base);
    }
  }

  // ------------------------------------------------------------------ the remote branch

  predicate PushesTo(pc: Pc, repository: Repository) {
    pc.Pushing? && pc.repository == repository
  }

  lemma PresentBranchStep(state: State, step: Step, base: string, repository: Repository)
    requires repository in state.world.remote && !PushesTo(state.pc, repository)
    requires step.RewriteRemote? ==> step.repository != repository
    ensures var after := Next(state, step, base);
      && repository in after.world.remote && after.world.remote[repository] == state.world.remote[repository]
      && !PushesTo(after.pc, repository)
  {
  }

  /**
   A branch that is on the remote is pushed by no run, however many crash and whatever they want to push, as long as
   people leave the branch alone.
   */
  lemma {:induction false} PresentBranchIsLeftAlone(start: State, steps: seq<Step>, base: string,
                                                    repository: Repository)
    requires repository in start.world.remote && !PushesTo(start.pc, repository)
    requires forall i :: 0 <= i < |steps| && steps[i].RewriteRemote? ==> steps[i].repository != repository
    ensures var end := NextAll(start, steps, base);
      && repository in end.world.remote && end.world.remote[repository] == start.world.remote[repository]
      && !PushesTo(end.pc, repository)
  {
    if |steps| > 0 {
      PresentBranchIsLeftAlone(start, steps[..|steps| - 1], base, repository);
      PresentBranchStep(NextAll(start, steps[..|steps| - 1], base), steps[|steps| - 1], base, repository);
    }
  }

  /** No step of the process drops a commit from a remote branch. */
  lemma PushKeepsCommits(state: State, step: Step, base: string, repository: Repository, commit: Commit)
    requires repository in state.world.remote && state.world.remote[repository].Contains(commit)
    ensures var after := ProcessStep(state, step, base).world;
      repository in after.remote && after.remote[repository].Contains(commit)
  {
    if step.PushBranch? && PushesTo(state.pc, repository) && !RejectsPush(state.world, repository, state.pc.branch) {
      var before, branch := state.world.remote[repository], state.pc.branch;
      var kept, commits := before.earlier + [before.head], branch.earlier + [branch.head];
      assert commit in kept;
      var i :| 0 <= i < |kept| && kept[i] == commit;
      assert commits[i] == commit;
    }
  }

  // ------------------------------------------------------------------ a rerun adopts what an earlier run left

  /** Our one intact open pull request, whether or not its creation was ever answered or recorded. */
  predicate LeftOpen(world: World, repository: Repository, pullRequest: PullRequest, base: string) {
    && Listed(world, repository) == [pullRequest]
    && pullRequest.open && pullRequest.intact && pullRequest.base == base
    && (repository in world.recorded ==> world.recorded[repository] == pullRequest.number)
  }

  function RerunSteps(world: World, repository: Repository): seq<Step> {
    [StartDelivery(repository), ListPullRequests, BeginOperation]
    + (if HasSucceeded(world, PullRequestKey(repository)) then [] else [CompleteOperation])
    + [RecordNumber]
  }

  lemma OneMore(state: State, steps: seq<Step>, step: Step, base: string)
    ensures NextAll(state, steps + [step], base) == Next(NextAll(state, steps, base), step, base)
  {
    assert (steps + [step])[..|steps|] == steps;
  }

  lemma LeftOpenIsFound(world: World, repository: Repository, pullRequest: PullRequest, base: string)
    requires LeftOpen(world, repository, pullRequest, base)
    ensures Reconcile(Listed(world, repository), base, RecordedNumber(world, repository))
            == Existing(pullRequest.number)
  {
    var test := (candidate: PullRequest) => candidate.open;
    assert Listed(world, repository)[..0] == [];
    assert Those([], test) == [] && Those(Listed(world, repository), test) == [pullRequest];
    assert Open(Listed(world, repository)) == [pullRequest];
  }

  /**
   Wherever the earlier run crashed, the next undisturbed run records the pull request that exists and makes no other.
   */
  lemma RerunAdopts(state: State, repository: Repository, pullRequest: PullRequest, base: string)
    requires state.pc.Idle? && LeftOpen(state.world, repository, pullRequest, base)
    ensures var end := NextAll(state, RerunSteps(state.world, repository), base);
      && end.pc.Idle? && Listed(end.world, repository) == [pullRequest]
      && repository in end.world.recorded && end.world.recorded[repository] == pullRequest.number
      && HasSucceeded(end.world, PullRequestKey(repository))
  {
    hide Reconcile, Those;
    LeftOpenIsFound(state.world, repository, pullRequest, base);
    var started := [StartDelivery(repository)];
    var listed := started + [ListPullRequests];
    var begun := listed + [BeginOperation];
    OneMore(state, [], StartDelivery(repository), base);
    assert [] + [StartDelivery(repository)] == started;
    OneMore(state, started, ListPullRequests, base);
    OneMore(state, listed, BeginOperation, base);
    if HasSucceeded(state.world, PullRequestKey(repository)) {
      OneMore(state, begun, RecordNumber, base);
      assert RerunSteps(state.world, repository) == begun + [RecordNumber];
    } else {
      OneMore(state, begun, CompleteOperation, base);
      OneMore(state, begun + [CompleteOperation], RecordNumber, base);
      assert RerunSteps(state.world, repository) == begun + [CompleteOperation] + [RecordNumber];
    }
  }

  // ------------------------------------------------------------------ the process as code

  datatype DeliveryFailure = Rejected | Transient | LeaseLost | LinearFailed

  /** What `beginExternalOperation` found under a key. */
  datatype Intent = New | Unfinished | Finished(response: nat)

  predicate ByPeople(step: Step) {
    step.RewriteRemote? || step.ClosePullRequest? || step.MergePullRequest? || step.ReopenPullRequest?
      || step.RewritePullRequest? || step.OpenForeign? || step.PostForeign?
  }

  /** Pull requests are never deleted and keep their numbers. */
  predicate Keeps(before: World, after: World) {
    forall repository, i :: repository in before.pullRequests && 0 <= i < |before.pullRequests[repository]| ==>
      && repository in after.pullRequests && i < |after.pullRequests[repository]|
      && after.pullRequests[repository][i].number == before.pullRequests[repository][i].number
  }

  predicate Exists(world: World, repository: Repository, number: nat) {
    exists i :: 0 <= i < |Listed(world, repository)| && Listed(world, repository)[i].number == number
  }

  lemma ExistsStays(before: World, after: World, repository: Repository, number: nat)
    requires Keeps(before, after) && Exists(before, repository, number)
    ensures Exists(after, repository, number)
  {
    var i :| 0 <= i < |Listed(before, repository)| && Listed(before, repository)[i].number == number;
    assert Listed(after, repository)[i].number == before.pullRequests[repository][i].number;
  }

  lemma PeopleKeepNumbers(world: World, step: Step, base: string)
    ensures Keeps(world, PeopleStep(world, step, base))
    ensures PeopleStep(world, step, base).operations == world.operations
    ensures PeopleStep(world, step, base).recorded == world.recorded
  {
  }

  lemma PeopleStepIsNext(state: State, step: Step, base: string)
    requires ByPeople(step)
    ensures Next(state, step, base) == state.(world := PeopleStep(state.world, step, base))
  {
  }

  /** The operation whose intent is recorded next. */
  predicate Begins(pc: Pc, key: OperationKey) {
    || (pc.BeginningComment? && key == CommentKey(pc.event))
    || (pc.BeginningPush? && key == PushKey(pc.repository, pc.branch.head))
    || ((pc.Found? || pc.Missing?) && key == PullRequestKey(pc.repository))
  }

  lemma BeginningIsNext(state: State, key: OperationKey, base: string)
    requires Begins(state.pc, key)
    ensures Next(state, BeginOperation, base)
         == State(Begun(state.world, key), AfterBegin(state, base).pc, state.holding)
  {
  }

  /** Every recorded number is still recorded. */
  predicate KeepsNumbers(before: map<Repository, nat>, after: map<Repository, nat>) {
    forall repository :: repository in before ==> repository in after && after[repository] == before[repository]
  }

  /** Delivers one task. People act whenever the process talks to the outside, as `arrivals` says. */
  class DeliveryProcess {
    const base: string
    var remote: map<Repository, Branch>
    var pullRequests: map<Repository, seq<PullRequest>>
    var comments: seq<Comment>
    var operations: map<OperationKey, Status>
    var recorded: map<Repository, nat>
    var holding: bool
    var arrivals: seq<Step>
    ghost var pc: Pc
    ghost var origin: State
    ghost var trace: seq<Step>

    constructor (base: string, world: World, arrivals: seq<Step>)
      requires DeliveryOk(State(world, Idle, true)) && forall i :: 0 <= i < |arrivals| ==> ByPeople(arrivals[i])
      ensures View() == world && Valid() && pc.Idle? && holding && this.base == base
    {
      this.base, this.arrivals := base, arrivals;
      remote, pullRequests, comments := world.remote, world.pullRequests, world.comments;
      operations, recorded := world.operations, world.recorded;
      holding := true;
      pc, origin, trace := Idle, State(world, Idle, true), [];
    }

    ghost function View(): World
      reads this
    {
      World(remote, pullRequests, comments, operations, recorded)
    }

    /** All that happened is a run of the protocol. */
    ghost predicate Valid()
      reads this
    {
      && State(View(), pc, holding) == NextAll(origin, trace, base) && DeliveryOk(origin) && PcAgrees(origin)
      && forall i :: 0 <= i < |arrivals| ==> ByPeople(arrivals[i])
    }

    /** So whatever the process has done, nothing of ours exists twice. */
    lemma NothingTwice()
      requires Valid()
      ensures DeliveryOk(State(View(), pc, holding))
    {
      NothingIsDuplicated(origin, trace, base);
    }

    /** And whatever is recorded next does not contradict what is recorded. */
    lemma NumbersAgree()
      requires Valid()
      ensures PcAgrees(State(View(), pc, holding))
    {
      RecordedNumberStays(origin, trace, base);
    }

    /** The machine takes a step of the process that leaves the world alone. */
    ghost method Silently(step: Step)
      requires Valid() && !ByPeople(step)
      requires ProcessStep(State(View(), pc, holding), step, base).world == View()
      requires ProcessStep(State(View(), pc, holding), step, base).holding == holding
      modifies this`pc, this`trace
      ensures Valid() && pc == old(ProcessStep(State(View(), pc, holding), step, base)).pc
    {
      OneMore(origin, trace, step, base);
      pc := ProcessStep(State(View(), pc, holding), step, base).pc;
      trace := trace + [step];
    }

    method PeopleAct()
      requires Valid()
      modifies this
      ensures Valid() && pc == old(pc) && holding == old(holding) && operations == old(operations)
      ensures recorded == old(recorded)
      ensures Keeps(old(View()), View())
      ensures old(arrivals) == [] ==> View() == old(View()) && arrivals == []
    {
      if |arrivals| > 0 {
        var step := arrivals[0];
        var world := PeopleStep(World(remote, pullRequests, comments, operations, recorded), step, base);
        OneMore(origin, trace, step, base);
        PeopleKeepNumbers(View(), step, base);
        PeopleStepIsNext(State(View(), pc, holding), step, base);
        remote, pullRequests, comments := world.remote, world.pullRequests, world.comments;
        operations, recorded := world.operations, world.recorded;
        trace := trace + [step];
        arrivals := arrivals[1..];
      }
    }

    /** Records the intent of an effect, or finds the existing record. */
    method BeginExternalOperation(key: OperationKey) returns (intent: Intent)
      requires Valid()
      requires Begins(pc, key)
      modifies this
      ensures Valid() && holding == old(holding) && recorded == old(recorded) && pullRequests == old(pullRequests)
      ensures remote == old(remote) && comments == old(comments) && arrivals == old(arrivals)
      ensures pc == AfterBegin(State(old(View()), old(pc), holding), base).pc
      ensures intent == (if key !in old(operations) then New
                         else match old(operations)[key]
                              case Pending => Unfinished
                              case Succeeded(response) => Finished(response))
      ensures intent.Finished? ==> HasSucceeded(View(), key)
      ensures key in operations
    {
      hide AfterBegin, Next, NextAll, DeliveryOk, Begins;
      ghost var after := AfterBegin(State(View(), pc, holding), base);
      BeginningIsNext(State(View(), pc, holding), key, base);
      OneMore(origin, trace, BeginOperation, base);
      if key in operations {
        intent := match operations[key] case Pending => Unfinished case Succeeded(response) => Finished(response);
      } else {
        operations := operations[key := Pending];
        intent := New;
      }
      pc := after.pc;
      trace := trace + [BeginOperation];
    }

    /** Records the observed result; only the lease holder may. */
    method CompleteExternalOperation(key: OperationKey, response: nat) returns (completed: bool)
      requires Valid() && pc == Completing(key, response) && key in operations
      modifies this
      ensures Valid() && holding == old(holding) && recorded == old(recorded) && pullRequests == old(pullRequests)
      ensures remote == old(remote) && comments == old(comments) && arrivals == old(arrivals)
      ensures completed <==> holding
      ensures completed ==> HasSucceeded(View(), key)
      ensures completed ==> pc == AfterCompletion(key, response)
      ensures !completed ==> pc.Idle?
    {
      ghost var after := ProcessStep(State(View(), pc, holding), CompleteOperation, base);
      OneMore(origin, trace, CompleteOperation, base);
      if holding {
        operations := operations[key := Succeeded(response)];
      }
      completed := holding;
      pc := after.pc;
      trace := trace + [CompleteOperation];
    }

    /** Asks GitHub for a pull request. No answer means it was refused, or created without the answer arriving. */
    method CreateOnGitHub(repository: Repository, number: nat, lost: bool) returns (answer: Option<nat>)
      requires Valid() && pc == Creating(repository)
      modifies this
      ensures Valid() && holding == old(holding) && recorded == old(recorded) && operations == old(operations)
      ensures answer.Some? ==> answer.value == number && pc == Completing(PullRequestKey(repository), number)
      ensures answer.Some? ==> Exists(View(), repository, number)
      ensures answer.None? ==> pc.Idle?
      ensures old(arrivals) == [] ==> arrivals == []
      ensures old(arrivals) == [] && Refuses(old(View()), repository, base)
              ==> answer.None? && pullRequests == old(pullRequests)
      ensures old(arrivals) == [] && !Refuses(old(View()), repository, base) ==>
        && (answer.None? <==> lost)
        && Listed(View(), repository)
            == Listed(old(View()), repository) + [PullRequest(number, true, true, false, base, true)]
      ensures PullRequestKey(repository) in old(operations) ==> PullRequestKey(repository) in operations
    {
      PeopleAct();
      var world := World(remote, pullRequests, comments, operations, recorded);
      ghost var after := ProcessStep(State(world, pc, holding), CreatePullRequest(number, lost), base);
      OneMore(origin, trace, CreatePullRequest(number, lost), base);
      trace := trace + [CreatePullRequest(number, lost)];
      pc := after.pc;
      if Refuses(world, repository, base) {
        return None;
      }
      pullRequests := Added(world, repository, PullRequest(number, true, true, false, base, true)).pullRequests;
      assert Listed(View(), repository)[|Listed(world, repository)|].number == number;
      return if lost then None else Some(number);
    }

    /** Stores the number on the work unit; only the lease holder may. */
    method RecordWorkUnitDelivery(repository: Repository, number: nat) returns (stored: bool)
      requires Valid() && pc == Recording(repository, number)
      modifies this
      ensures Valid() && pc.Idle? && holding == old(holding) && operations == old(operations)
      ensures pullRequests == old(pullRequests)
      ensures remote == old(remote) && comments == old(comments) && arrivals == old(arrivals)
      ensures stored <==> holding
      ensures stored ==> recorded == old(recorded)[repository := number]
      ensures KeepsNumbers(old(recorded), recorded)
    {
      NumbersAgree();
      OneMore(origin, trace, RecordNumber, base);
      if holding {
        recorded := recorded[repository := number];
      }
      stored := holding;
      pc := Idle;
      trace := trace + [RecordNumber];
    }

    /**
     Pushes the reviewed branch of one repository unless it is recorded as pushed, and then looks at what the remote
     has, every time.
     */
    method PushReviewed(repository: Repository, branch: Branch, lost: bool)
      returns (failure: Option<DeliveryFailure>)
      requires Valid() && pc.Idle? && holding
      modifies this
      ensures Valid() && pc.Idle?
      ensures failure.None? ==>
        && HasSucceeded(View(), PushKey(repository, branch.head))
        && repository in remote && remote[repository].Contains(branch.head)
      ensures old(arrivals) == [] ==>
        if HasSucceeded(old(View()), PushKey(repository, branch.head)) || repository in old(remote) then
          && remote == old(remote)
          && failure == if repository in remote && remote[repository].Contains(branch.head) then None
                        else Some(Rejected)
        else
          && remote == old(remote)[repository := branch]
          && failure == if lost then Some(Transient) else None
    {
      hide NextAll, DeliveryOk, PcAgrees, Reconcile, PeopleStep, Keeps;
      Silently(StartPush(repository, branch));
      var intent := BeginExternalOperation(PushKey(repository, branch.head));
      if !intent.Finished? {
        failure := PushAndRecord(repository, branch, lost);
        if failure.Some? {
          return;
        }
      }
      PeopleAct();
      var contained := repository in remote && remote[repository].Contains(branch.head);
      Silently(InspectRemote);
      return if contained then None else Some(Rejected);
    }

    /** Pushes a branch that is absent from the remote, and records what the remote has. */
    method PushAndRecord(repository: Repository, branch: Branch, lost: bool) returns (failure: Option<DeliveryFailure>)
      requires Valid() && pc == Looking(repository, branch) && PushKey(repository, branch.head) in operations
      modifies this
      ensures Valid() && (old(arrivals) == [] ==> arrivals == [])
      ensures if failure.None? then
          pc == Inspecting(repository, branch.head) && HasSucceeded(View(), PushKey(repository, branch.head))
        else pc.Idle?
      ensures old(arrivals) == [] && old(holding) ==>
        && remote == (if repository in old(remote) then old(remote) else old(remote)[repository := branch])
        && failure == if repository !in old(remote) && lost then Some(Transient) else None
    {
      hide NextAll, DeliveryOk, PcAgrees, Reconcile, PeopleStep, Keeps;
      PeopleAct();
      var present := repository in remote;
      var found := if present then remote[repository].head else branch.head;
      Silently(LookAtRemote);
      if !present {
        failure := PushToRemote(repository, branch, lost);
        if failure.Some? {
          return;
        }
        PeopleAct();
        var there := repository in remote && remote[repository].head == branch.head;
        Silently(LookAtRemote);
        if !there {
          return Some(Rejected);
        }
      }
      var completed := CompleteExternalOperation(PushKey(repository, branch.head), found);
      return if completed then None else Some(LeaseLost);
    }

    /** One unforced push, which the remote rejects when it would drop commits. */
    method PushToRemote(repository: Repository, branch: Branch, lost: bool) returns (failure: Option<DeliveryFailure>)
      requires Valid() && pc == Pushing(repository, branch)
      modifies this
      ensures Valid() && holding == old(holding) && operations == old(operations)
      ensures old(arrivals) == [] ==> arrivals == []
      ensures if failure.None? then pc == LookingAgain(repository, branch) else pc.Idle?
      ensures old(arrivals) == [] && repository !in old(remote) ==>
        remote == old(remote)[repository := branch] && failure == if lost then Some(Transient) else None
    {
      PeopleAct();
      var world := World(remote, pullRequests, comments, operations, recorded);
      ghost var after := ProcessStep(State(world, pc, holding), PushBranch(lost), base);
      OneMore(origin, trace, PushBranch(lost), base);
      trace := trace + [PushBranch(lost)];
      pc := after.pc;
      if RejectsPush(world, repository, branch) {
        return Some(Rejected);
      }
      remote := remote[repository := branch];
      return if lost then Some(Transient) else None;
    }

    /** Creates or recovers the pull request of one repository and records its number. */
    method EnsurePullRequest(repository: Repository, number: nat, lost: bool)
      returns (result: Result<nat, DeliveryFailure>)
      requires Valid() && pc.Idle? && holding
      modifies this
      ensures Valid() && pc.Idle?
      ensures KeepsNumbers(old(recorded), recorded)
      ensures result.Ok? && repository in old(recorded) ==> result.value == old(recorded)[repository]
      ensures result.Ok? ==>
        && repository in recorded && recorded[repository] == result.value
        && HasSucceeded(View(), PullRequestKey(repository)) && Exists(View(), repository, result.value)
      ensures old(arrivals) == [] ==>
        match Reconcile(Listed(old(View()), repository), base, RecordedNumber(old(View()), repository))
        case NeedsOperator => result == Err(Rejected) && View() == old(View())
        case Existing(existing) => result == Ok(existing) && pullRequests == old(pullRequests)
        case NothingListed =>
          if HasSucceeded(old(View()), PullRequestKey(repository)) then
            result == Err(Rejected) && pullRequests == old(pullRequests)
          else
            && result == (if lost then Err(Transient) else Ok(number))
            && Listed(View(), repository) == [PullRequest(number, true, true, false, base, true)]
    {
      hide NextAll, DeliveryOk, PcAgrees, Reconcile, PeopleStep, Keeps;
      Silently(StartDelivery(repository));
      var recordedNumber := if repository in recorded then Some(recorded[repository]) else None;
      PeopleAct();
      var listed := if repository in pullRequests then pullRequests[repository] else [];
      var found := Reconcile(listed, base, recordedNumber);
      Silently(ListPullRequests);
      match found {
        case NeedsOperator =>
          return Err(Rejected);
        case Existing(existing) =>
          result := Adopt(repository, existing);
        case NothingListed =>
          result := CreateNew(repository, number, lost);
      }
    }

    /** Records the pull request that reconciliation found. */
    method Adopt(repository: Repository, existing: nat) returns (result: Result<nat, DeliveryFailure>)
      requires Valid() && pc == Found(repository, existing) && Exists(View(), repository, existing)
      modifies this
      ensures Valid() && pc.Idle?
      ensures KeepsNumbers(old(recorded), recorded)
      ensures result.Ok? ==>
        && repository in recorded && recorded[repository] == result.value
        && HasSucceeded(View(), PullRequestKey(repository)) && Exists(View(), repository, result.value)
      ensures pullRequests == old(pullRequests) && (old(holding) ==> result == Ok(existing))
    {
      hide NextAll, DeliveryOk, PcAgrees, Reconcile, PeopleStep, Keeps;
      ghost var before := View();
      var intent := BeginExternalOperation(PullRequestKey(repository));
      if !intent.Finished? {
        var completed := CompleteExternalOperation(PullRequestKey(repository), existing);
        if !completed {
          return Err(LeaseLost);
        }
      }
      var stored := RecordWorkUnitDelivery(repository, existing);
      ExistsStays(before, View(), repository, existing);
      return if stored then Ok(existing) else Err(LeaseLost);
    }

    /** Creates a pull request when none is listed and none was recorded. */
    method CreateNew(repository: Repository, number: nat, lost: bool) returns (result: Result<nat, DeliveryFailure>)
      requires Valid() && pc == Missing(repository)
      modifies this
      ensures Valid() && pc.Idle?
      ensures KeepsNumbers(old(recorded), recorded)
      ensures result.Ok? ==>
        && repository in recorded && recorded[repository] == result.value
        && HasSucceeded(View(), PullRequestKey(repository)) && Exists(View(), repository, result.value)
      ensures HasSucceeded(old(View()), PullRequestKey(repository))
              ==> result == Err(Rejected) && pullRequests == old(pullRequests)
      ensures old(arrivals) == [] && old(holding) && Listed(old(View()), repository) == []
              && !HasSucceeded(old(View()), PullRequestKey(repository)) ==>
        && result == (if lost then Err(Transient) else Ok(number))
        && Listed(View(), repository) == [PullRequest(number, true, true, false, base, true)]
    {
      hide NextAll, ProcessStep, Next, DeliveryOk, PcAgrees, Keeps, Reconcile, PeopleStep;
      var intent := BeginExternalOperation(PullRequestKey(repository));
      if intent.Finished? {
        return Err(Rejected);
      }
      var answer := CreateOnGitHub(repository, number, lost);
      if answer.None? {
        return Err(Transient);
      }
      ghost var before := View();
      var completed := CompleteExternalOperation(PullRequestKey(repository), number);
      if !completed {
        return Err(LeaseLost);
      }
      ExistsStays(before, View(), repository, number);
      result := ConfirmAndRecord(repository, number);
    }

    /** Reads the new pull request back, verifies it, and records its number. */
    method ConfirmAndRecord(repository: Repository, number: nat) returns (result: Result<nat, DeliveryFailure>)
      requires Valid() && pc == Recording(repository, number) && HasSucceeded(View(), PullRequestKey(repository))
      requires Exists(View(), repository, number)
      modifies this
      ensures Valid() && pc.Idle?
      ensures KeepsNumbers(old(recorded), recorded)
      ensures result.Ok? ==>
        && repository in recorded && recorded[repository] == result.value
        && HasSucceeded(View(), PullRequestKey(repository)) && Exists(View(), repository, result.value)
      ensures old(arrivals) == [] ==> pullRequests == old(pullRequests)
      ensures old(arrivals) == [] && old(holding)
              && (forall i :: 0 <= i < |Listed(old(View()), repository)|
                              && Listed(old(View()), repository)[i].number == number ==>
                    Listed(old(View()), repository)[i].base == base)
        ==> result == Ok(number)
    {
      hide NextAll, DeliveryOk, PcAgrees, Reconcile, PeopleStep, Keeps;
      ghost var before := View();
      PeopleAct();
      ExistsStays(before, View(), repository, number);
      var world := World(remote, pullRequests, comments, operations, recorded);
      var i :| 0 <= i < |Listed(world, repository)| && Listed(world, repository)[i].number == number;
      if !Verifies(Listed(world, repository)[i], base, None) {
        Silently(Stop);
        return Err(Rejected);
      }
      before := View();
      var stored := RecordWorkUnitDelivery(repository, number);
      ExistsStays(before, View(), repository, number);
      return if stored then Ok(number) else Err(LeaseLost);
    }

    /** Posts a milestone comment at most once, or finds the one an unanswered request left behind. */
    method SyncLinearComment(event: string, id: nat, lost: bool) returns (failure: Option<DeliveryFailure>)
      requires Valid() && pc.Idle? && holding
      modifies this
      ensures Valid() && pc.Idle?
      ensures failure.None? ==> HasSucceeded(View(), CommentKey(event))
      ensures old(arrivals) == [] && !lost ==> failure.None?
      ensures old(arrivals) == [] ==>
        comments == if CommentKey(event) !in old(operations)
                       || (old(operations)[CommentKey(event)].Pending? && FirstMention(old(comments), event).None?)
                    then old(comments) + [Comment(id, Some(event), {event})] else old(comments)
    {
      hide NextAll, DeliveryOk, PcAgrees, Reconcile, PeopleStep, Keeps;
      Silently(StartComment(event));
      var intent := BeginExternalOperation(CommentKey(event));
      if intent.Finished? {
        return None;
      }
      if intent.Unfinished? {
        PeopleAct();
        var existing := FirstMention(comments, event);
        Silently(ListComments);
        if existing.Some? {
          var adopted := CompleteExternalOperation(CommentKey(event), existing.value);
          return if adopted then None else Some(LeaseLost);
        }
      }
      var answer := CreateOnLinear(event, id, lost);
      if answer.None? {
        return Some(LinearFailed);
      }
      var completed := CompleteExternalOperation(CommentKey(event), id);
      return if completed then None else Some(LeaseLost);
    }

    /** Asks Linear for a comment that carries the key; the answer may be lost. */
    method CreateOnLinear(event: string, id: nat, lost: bool) returns (answer: Option<nat>)
      requires Valid() && pc == Posting(event)
      modifies this
      ensures Valid() && holding == old(holding) && operations == old(operations)
      ensures answer.Some? ==> answer.value == id && pc == Completing(CommentKey(event), id)
      ensures answer.None? ==> pc.Idle?
      ensures answer.None? <==> lost
      ensures old(arrivals) == [] ==> comments == old(comments) + [Comment(id, Some(event), {event})]
    {
      PeopleAct();
      ghost var after := ProcessStep(State(View(), pc, holding), CreateComment(id, lost), base);
      OneMore(origin, trace, CreateComment(id, lost), base);
      trace := trace + [CreateComment(id, lost)];
      pc := after.pc;
      comments := comments + [Comment(id, Some(event), {event})];
      return if lost then None else Some(id);
    }
  }
}
