/**
 Preparation of a task's worktree in one clone: the Git effects of `prepare` in order, what any prefix of them leaves
 behind, and the reruns that continue from it.
 */
module Workspace {
  import opened Wrappers

  type TaskId = string
  type BranchName = string
  type Path = string
  type CommitId = string

  /** Ownership recorded in the clone's branch configuration. */
  datatype Marker = Marker(task: Option<TaskId>, base: Option<CommitId>, worktree: Option<Path>)

  datatype Worktree = Worktree(branch: BranchName, lockReason: string, head: CommitId)

  datatype Clone = Clone(
    branches: map<BranchName, CommitId>,
    markers: map<BranchName, Marker>,
    worktrees: map<Path, Worktree>,
    /** The remote-tracking ref of the base branch. */
    remoteBase: Option<CommitId>,
    /** Paths that exist on disk without being registered worktrees. */
    strays: set<Path>)

  /** The task, the clone's registration, and the ancestry of commits (each commit being its own ancestor). */
  datatype Setting = Setting(
    task: TaskId,
    path: Path,
    branch: BranchName,
    baseBranch: BranchName,
    reason: string,
    isAncestor: (CommitId, CommitId) -> bool)

  /** What one run of `prepare` meets outside the clone. */
  datatype Circumstances = Circumstances(
    validName: bool,
    repositoryVerified: bool,
    reachable: bool,
    remoteTaskBranch: bool,
    /** The head of the base branch on the remote, if the branch exists there. */
    remoteHead: Option<CommitId>,
    /** A checkout of the base branch has no tracked changes and accepts the merge. */
    checkoutAdvances: bool,
    enoughDisk: bool,
    freshWorktreeClean: bool)

  datatype Persisted = Persisted(path: Option<Path>, branch: Option<BranchName>, base: Option<CommitId>)

  datatype PrepareError = NeedsOperator | RemoteUnavailable

  datatype Prepared = Prepared(base: CommitId, reused: bool, localBaseUpdated: bool)

  datatype Effect =
    | FetchBase(commit: CommitId)
    | AdvanceBase(commit: CommitId)
    | SetTask(branch: BranchName, task: TaskId)
    | SetBase(branch: BranchName, base: CommitId)
    | SetWorktree(branch: BranchName, path: Path)
    | CreateBranch(branch: BranchName, at: CommitId)
    | AddWorktree(path: Path, branch: BranchName, reason: string)

  function MarkerOf(clone: Clone, branch: BranchName): Marker {
    if branch in clone.markers then clone.markers[branch] else Marker(None, None, None)
  }

  function Apply(setting: Setting, clone: Clone, effect: Effect): Clone {
    match effect
    case FetchBase(commit) => clone.(remoteBase := Some(commit))
    case AdvanceBase(commit) =>
      clone.(branches := clone.branches[setting.baseBranch := commit],
             worktrees := map path | path in clone.worktrees ::
               if clone.worktrees[path].branch == setting.baseBranch then clone.worktrees[path].(head := commit)
               else clone.worktrees[path])
    case SetTask(branch, task) =>
      clone.(markers := clone.markers[branch := MarkerOf(clone, branch).(task := Some(task))])
    case SetBase(branch, base) =>
      clone.(markers := clone.markers[branch := MarkerOf(clone, branch).(base := Some(base))])
    case SetWorktree(branch, path) =>
      clone.(markers := clone.markers[branch := MarkerOf(clone, branch).(worktree := Some(path))])
    case CreateBranch(branch, at) => clone.(branches := clone.branches[branch := at])
    case AddWorktree(path, branch, reason) =>
      if branch !in clone.branches then clone
      else clone.(worktrees := clone.worktrees[path := Worktree(branch, reason, clone.branches[branch])])
  }

  function ApplyAll(setting: Setting, clone: Clone, effects: seq<Effect>): Clone {
    if |effects| == 0 then clone
    else Apply(setting, ApplyAll(setting, clone, effects[..|effects| - 1]), effects[|effects| - 1])
  }

  lemma ApplyNext(setting: Setting, clone: Clone, effects: seq<Effect>, effect: Effect)
    ensures ApplyAll(setting, clone, effects + [effect]) == Apply(setting, ApplyAll(setting, clone, effects), effect)
  {
    assert (effects + [effect])[..|effects|] == effects;
  }

  lemma {:induction false} ApplyJoined(setting: Setting, clone: Clone, first: seq<Effect>, second: seq<Effect>)
    ensures ApplyAll(setting, clone, first + second) == ApplyAll(setting, ApplyAll(setting, clone, first), second)
  {
    if |second| == 0 {
      assert first + second == first;
    } else {
      assert (first + second)[..|first + second| - 1] == first + second[..|second| - 1];
      ApplyJoined(setting, clone, first, second[..|second| - 1]);
    }
  }

  // ------------------------------------------------------------------ what prepare does

  datatype Plan = Plan(effects: seq<Effect>, result: Result<Prepared, PrepareError>)

  /** Exists without matching ownership, or owned by someone else, or checked out elsewhere. */
  predicate Foreign(setting: Setting, clone: Clone) {
    var marker := MarkerOf(clone, setting.branch);
    || (marker.task.Some? && marker.task.value != setting.task)
    || (marker.task.None?
        && (setting.branch in clone.branches || setting.path in clone.worktrees || CheckedOut(clone, setting.branch)))
    || (exists path :: path in clone.worktrees && path != setting.path
                       && clone.worktrees[path].branch == setting.branch)
  }

  predicate CheckedOut(clone: Clone, branch: BranchName) {
    exists path :: path in clone.worktrees && clone.worktrees[path].branch == branch
  }

  /** The registered worktree is this task's: branch, lock, complete markers, and a head that descends from the base. */
  predicate Reusable(setting: Setting, clone: Clone, persisted: Persisted)
    requires setting.path in clone.worktrees
  {
    var marker, worktree := MarkerOf(clone, setting.branch), clone.worktrees[setting.path];
    && worktree.branch == setting.branch && worktree.lockReason == setting.reason
    && marker.base.Some? && marker.worktree == Some(setting.path)
    && (persisted.base.Some? ==> persisted.base == marker.base)
    && setting.isAncestor(marker.base.value, worktree.head)
  }

  function LocalBranch(setting: Setting, clone: Clone): Option<CommitId> {
    if setting.branch in clone.branches then Some(clone.branches[setting.branch]) else None
  }

  /** Whether the local base branch may move to the remote-tracking commit. */
  predicate MayAdvance(setting: Setting, clone: Clone, circumstances: Circumstances) {
    && setting.baseBranch in clone.branches && clone.remoteBase.Some?
    && clone.branches[setting.baseBranch] != clone.remoteBase.value
    && setting.isAncestor(clone.branches[setting.baseBranch], clone.remoteBase.value)
    && (CheckedOut(clone, setting.baseBranch) ==> circumstances.checkoutAdvances)
  }

  predicate BaseUpdated(setting: Setting, clone: Clone, circumstances: Circumstances) {
    || MayAdvance(setting, clone, circumstances)
    || (setting.baseBranch in clone.branches && clone.remoteBase == Some(clone.branches[setting.baseBranch]))
  }

  function MarkersAndWorktree(setting: Setting, base: CommitId, hasBranch: bool): seq<Effect> {
    [SetTask(setting.branch, setting.task), SetBase(setting.branch, base), SetWorktree(setting.branch, setting.path)]
    + (if hasBranch then [] else [CreateBranch(setting.branch, base)])
    + [AddWorktree(setting.path, setting.branch, setting.reason)]
  }

  function PreparePlan(setting: Setting, clone: Clone, circumstances: Circumstances, persisted: Persisted): Plan {
    var refused := Plan([], Err(NeedsOperator));
    var local := LocalBranch(setting, clone);
    if !circumstances.validName || setting.branch == setting.baseBranch then refused
    else if persisted.branch.Some? && persisted.branch.value != setting.branch then refused
    else if persisted.path.Some? && persisted.path.value != setting.path then refused
    else if !circumstances.repositoryVerified || Foreign(setting, clone) then refused
    else if setting.path in clone.worktrees then
      if !Reusable(setting, clone, persisted) then refused
      else Plan([], Ok(Prepared(MarkerOf(clone, setting.branch).base.value, true, false)))
    else if persisted.base.Some? || setting.path in clone.strays then refused
    else if local.Some? && local != MarkerOf(clone, setting.branch).base then refused
    else if !circumstances.reachable then Plan([], Err(RemoteUnavailable))
    else if circumstances.remoteTaskBranch then refused
    else if local.None? && circumstances.remoteHead.None? then refused
    else
      var base := if local.Some? then local.value else circumstances.remoteHead.value;
      var fetched := if local.Some? then [] else [FetchBase(base)];
      var current := if local.Some? then clone else Apply(setting, clone, FetchBase(base));
      var advanced := if MayAdvance(setting, current, circumstances) then [AdvanceBase(current.remoteBase.value)]
                      else [];
      if !circumstances.enoughDisk then Plan(fetched + advanced, Err(NeedsOperator))
      else
        Plan(fetched + advanced + MarkersAndWorktree(setting, base, local.Some?),
             if !circumstances.freshWorktreeClean then Err(NeedsOperator)
             else Ok(Prepared(base, false, BaseUpdated(setting, current, circumstances))))
  }

  // ------------------------------------------------------------------ what a crash may leave

  /**
   The clone as some prefix of earlier runs for this task left it: nothing of the task, or markers with at most an
   unmoved branch, or the complete worktree.
   */
  predicate Preparable(setting: Setting, clone: Clone) {
    var marker := MarkerOf(clone, setting.branch);
    && setting.branch != setting.baseBranch
    && setting.path !in clone.strays
    && !Foreign(setting, clone)
    && (setting.branch in clone.branches && setting.path !in clone.worktrees ==>
          marker.base == Some(clone.branches[setting.branch]))
    && (setting.path in clone.worktrees ==>
          setting.branch in clone.branches && Reusable(setting, clone, Persisted(None, None, None)))
  }

  /** One effect that keeps the clone preparable, and what it may rely on. */
  predicate Allowed(setting: Setting, clone: Clone, effect: Effect) {
    var marker := MarkerOf(clone, setting.branch);
    match effect
    case FetchBase(_) => true
    case AdvanceBase(commit) =>
      setting.baseBranch in clone.branches && setting.isAncestor(clone.branches[setting.baseBranch], commit)
    case SetTask(branch, task) => branch == setting.branch && task == setting.task && setting.path !in clone.worktrees
    case SetBase(branch, base) =>
      && branch == setting.branch && setting.path !in clone.worktrees && marker.task == Some(setting.task)
      && (branch in clone.branches ==> clone.branches[branch] == base)
    case SetWorktree(branch, path) =>
      branch == setting.branch && path == setting.path && setting.path !in clone.worktrees
        && marker.task == Some(setting.task)
    case CreateBranch(branch, at) =>
      branch == setting.branch && branch !in clone.branches && setting.path !in clone.worktrees
        && marker.task == Some(setting.task) && marker.base == Some(at)
    case AddWorktree(path, branch, reason) =>
      && branch == setting.branch && path == setting.path && reason == setting.reason && path !in clone.worktrees
      && marker.task == Some(setting.task) && marker.worktree == Some(path) && branch in clone.branches
  }

  ghost predicate AllAllowed(setting: Setting, clone: Clone, effects: seq<Effect>) {
    |effects| > 0 ==>
      && AllAllowed(setting, clone, effects[..|effects| - 1])
      && Allowed(setting, ApplyAll(setting, clone, effects[..|effects| - 1]), effects[|effects| - 1])
  }

  ghost predicate Reflexive(setting: Setting) {
    forall commit :: setting.isAncestor(commit, commit)
  }

  lemma AllowedKeepsPreparable(setting: Setting, clone: Clone, effect: Effect)
    requires Reflexive(setting) && Preparable(setting, clone) && Allowed(setting, clone, effect)
    ensures Preparable(setting, Apply(setting, clone, effect))
  {
  }

  lemma Extend(setting: Setting, clone: Clone, effects: seq<Effect>, effect: Effect)
    requires AllAllowed(setting, clone, effects) && Allowed(setting, ApplyAll(setting, clone, effects), effect)
    ensures AllAllowed(setting, clone, effects + [effect])
    ensures ApplyAll(setting, clone, effects + [effect]) == Apply(setting, ApplyAll(setting, clone, effects), effect)
  {
    assert (effects + [effect])[..|effects|] == effects;
  }

  /** Just before the markers are written: no worktree, and a branch only at the base. */
  predicate AboutToMark(setting: Setting, clone: Clone, base: CommitId, hasBranch: bool) {
    && setting.path !in clone.worktrees && setting.path !in clone.strays && !Foreign(setting, clone)
    && setting.branch != setting.baseBranch
    && (hasBranch <==> setting.branch in clone.branches)
    && (hasBranch ==> clone.branches[setting.branch] == base && MarkerOf(clone, setting.branch).base == Some(base))
  }

  /** The complete worktree of the task at its recorded base. */
  predicate Complete(setting: Setting, clone: Clone, base: CommitId) {
    && setting.path in clone.worktrees && setting.branch in clone.branches
    && MarkerOf(clone, setting.branch) == Marker(Some(setting.task), Some(base), Some(setting.path))
    && clone.worktrees[setting.path] == Worktree(setting.branch, setting.reason, base)
  }

  lemma MarksAllowed(setting: Setting, clone: Clone, begun: seq<Effect>, base: CommitId, hasBranch: bool)
    requires AllAllowed(setting, clone, begun) && AboutToMark(setting, ApplyAll(setting, clone, begun), base, hasBranch)
    ensures AllAllowed(setting, clone, begun + MarkersAndWorktree(setting, base, hasBranch))
    ensures Complete(setting, ApplyAll(setting, clone, begun + MarkersAndWorktree(setting, base, hasBranch)), base)
  {
    hide ApplyAll, AllAllowed;
    var one := begun + [SetTask(setting.branch, setting.task)];
    Extend(setting, clone, begun, SetTask(setting.branch, setting.task));
    var two := one + [SetBase(setting.branch, base)];
    Extend(setting, clone, one, SetBase(setting.branch, base));
    var three := two + [SetWorktree(setting.branch, setting.path)];
    Extend(setting, clone, two, SetWorktree(setting.branch, setting.path));
    MarkedAllowed(setting, clone, three, base, hasBranch);
    assert begun + MarkersAndWorktree(setting, base, hasBranch)
        == three + (if hasBranch then [] else [CreateBranch(setting.branch, base)])
           + [AddWorktree(setting.path, setting.branch, setting.reason)];
  }

  lemma MarkedAllowed(setting: Setting, clone: Clone, marked: seq<Effect>, base: CommitId, hasBranch: bool)
    requires AllAllowed(setting, clone, marked)
    requires var now := ApplyAll(setting, clone, marked);
      && setting.path !in now.worktrees
      && MarkerOf(now, setting.branch) == Marker(Some(setting.task), Some(base), Some(setting.path))
      && (hasBranch <==> setting.branch in now.branches) && (hasBranch ==> now.branches[setting.branch] == base)
    ensures var all := marked + (if hasBranch then [] else [CreateBranch(setting.branch, base)])
                       + [AddWorktree(setting.path, setting.branch, setting.reason)];
      AllAllowed(setting, clone, all) && Complete(setting, ApplyAll(setting, clone, all), base)
  {
    if hasBranch {
      assert marked + [] == marked;
      Extend(setting, clone, marked, AddWorktree(setting.path, setting.branch, setting.reason));
    } else {
      Extend(setting, clone, marked, CreateBranch(setting.branch, base));
      Extend(setting, clone, marked + [CreateBranch(setting.branch, base)],
             AddWorktree(setting.path, setting.branch, setting.reason));
    }
  }

  /** The effects before the markers. */
  function Preliminary(setting: Setting, clone: Clone, circumstances: Circumstances): seq<Effect>
    requires setting.branch in clone.branches || circumstances.remoteHead.Some?
  {
    var local := LocalBranch(setting, clone);
    var base := if local.Some? then local.value else circumstances.remoteHead.value;
    var fetched := if local.Some? then [] else [FetchBase(base)];
    var current := if local.Some? then clone else Apply(setting, clone, FetchBase(base));
    fetched + if MayAdvance(setting, current, circumstances) then [AdvanceBase(current.remoteBase.value)] else []
  }

  lemma FetchKeepsMarking(setting: Setting, clone: Clone, commit: CommitId, base: CommitId, hasBranch: bool)
    requires AboutToMark(setting, clone, base, hasBranch)
    ensures AboutToMark(setting, Apply(setting, clone, FetchBase(commit)), base, hasBranch)
  {
  }

  lemma AdvanceKeepsMarking(setting: Setting, clone: Clone, circumstances: Circumstances, base: CommitId,
                            hasBranch: bool)
    requires AboutToMark(setting, clone, base, hasBranch) && MayAdvance(setting, clone, circumstances)
    ensures clone.remoteBase.Some? && Allowed(setting, clone, AdvanceBase(clone.remoteBase.value))
    ensures AboutToMark(setting, Apply(setting, clone, AdvanceBase(clone.remoteBase.value)), base, hasBranch)
  {
  }

  lemma PreliminaryAllowed(setting: Setting, clone: Clone, circumstances: Circumstances)
    requires setting.branch in clone.branches || circumstances.remoteHead.Some?
    requires setting.branch != setting.baseBranch && setting.path !in clone.worktrees && setting.path !in clone.strays
    requires !Foreign(setting, clone)
    requires setting.branch in clone.branches
            ==> MarkerOf(clone, setting.branch).base == Some(clone.branches[setting.branch])
    ensures AllAllowed(setting, clone, Preliminary(setting, clone, circumstances))
    ensures AboutToMark(setting, ApplyAll(setting, clone, Preliminary(setting, clone, circumstances)),
      if setting.branch in clone.branches then clone.branches[setting.branch] else circumstances.remoteHead.value,
      setting.branch in clone.branches)
  {
    hide AboutToMark, Apply, MayAdvance, AllAllowed;
    var local := LocalBranch(setting, clone);
    var hasBranch := setting.branch in clone.branches;
    var base := if hasBranch then clone.branches[setting.branch] else circumstances.remoteHead.value;
    assert AboutToMark(setting, clone, base, hasBranch) by {
      StandsToMark(setting, clone, base, hasBranch);
    }
    var fetched := if hasBranch then [] else [FetchBase(base)];
    NothingAllowed(setting, clone);
    if !hasBranch {
      Extend(setting, clone, [], FetchBase(base));
      assert [] + [FetchBase(base)] == fetched;
      FetchKeepsMarking(setting, clone, base, base, hasBranch);
    }
    var current := ApplyAll(setting, clone, fetched);
    if MayAdvance(setting, current, circumstances) {
      AdvanceKeepsMarking(setting, current, circumstances, base, hasBranch);
      Extend(setting, clone, fetched, AdvanceBase(current.remoteBase.value));
    } else {
      assert fetched + [] == fetched;
    }
  }

  lemma StandsToMark(setting: Setting, clone: Clone, base: CommitId, hasBranch: bool)
    requires setting.branch != setting.baseBranch && setting.path !in clone.worktrees && setting.path !in clone.strays
    requires !Foreign(setting, clone) && (hasBranch <==> setting.branch in clone.branches)
    requires hasBranch ==> clone.branches[setting.branch] == base && MarkerOf(clone, setting.branch).base == Some(base)
    ensures AboutToMark(setting, clone, base, hasBranch)
  {
  }

  lemma NothingAllowed(setting: Setting, clone: Clone)
    ensures AllAllowed(setting, clone, []) && ApplyAll(setting, clone, []) == clone
  {
  }

  /** Each effect of a run is one that keeps the clone preparable when its turn comes, whatever the clone. */
  lemma PrepareAllowed(setting: Setting, clone: Clone, circumstances: Circumstances, persisted: Persisted)
    ensures AllAllowed(setting, clone, PreparePlan(setting, clone, circumstances, persisted).effects)
  {
    if PreparePlan(setting, clone, circumstances, persisted).effects != [] {
      var hasBranch := setting.branch in clone.branches;
      var base := if hasBranch then clone.branches[setting.branch] else circumstances.remoteHead.value;
      PreliminaryAllowed(setting, clone, circumstances);
      MarksAllowed(setting, clone, Preliminary(setting, clone, circumstances), base, hasBranch);
    }
  }

  // ------------------------------------------------------------------ crashes and reruns

  lemma {:induction false} PrefixKeepsPreparable(setting: Setting, clone: Clone, effects: seq<Effect>, crash: nat)
    requires Reflexive(setting) && Preparable(setting, clone) && AllAllowed(setting, clone, effects)
    requires crash <= |effects|
    ensures Preparable(setting, ApplyAll(setting, clone, effects[..crash]))
  {
    if crash < |effects| {
      PrefixKeepsPreparable(setting, clone, effects[..|effects| - 1], crash);
      assert effects[..|effects| - 1][..crash] == effects[..crash];
    } else if |effects| > 0 {
      var shorter := effects[..|effects| - 1];
      PrefixKeepsPreparable(setting, clone, shorter, |shorter|);
      assert shorter[..|shorter|] == shorter && effects[..crash] == effects;
      AllowedKeepsPreparable(setting, ApplyAll(setting, clone, shorter), effects[|effects| - 1]);
    }
  }

  /** A run that may have crashed: its circumstances, what the database held, and how many effects survived. */
  datatype Run = Run(circumstances: Circumstances, persisted: Persisted, survived: nat)

  function Survived(setting: Setting, clone: Clone, run: Run): Clone {
    var effects := PreparePlan(setting, clone, run.circumstances, run.persisted).effects;
    ApplyAll(setting, clone, effects[..if run.survived < |effects| then run.survived else |effects|])
  }

  function AfterRuns(setting: Setting, clone: Clone, runs: seq<Run>): Clone {
    if |runs| == 0 then clone else Survived(setting, AfterRuns(setting, clone, runs[..|runs| - 1]), runs[|runs| - 1])
  }

  lemma {:induction false} CrashesKeepPreparable(setting: Setting, clone: Clone, runs: seq<Run>)
    requires Reflexive(setting) && Preparable(setting, clone)
    ensures Preparable(setting, AfterRuns(setting, clone, runs))
  {
    if |runs| > 0 {
      var before, last := AfterRuns(setting, clone, runs[..|runs| - 1]), runs[|runs| - 1];
      CrashesKeepPreparable(setting, clone, runs[..|runs| - 1]);
      PrepareAllowed(setting, before, last.circumstances, last.persisted);
      var effects := PreparePlan(setting, before, last.circumstances, last.persisted).effects;
      PrefixKeepsPreparable(setting, before, effects, if last.survived < |effects| then last.survived else |effects|);
    }
  }

  /** A reachable remote that has the base branch and no task branch, and enough disk. */
  predicate Favourable(circumstances: Circumstances) {
    && circumstances.validName && circumstances.repositoryVerified && circumstances.reachable
    && !circumstances.remoteTaskBranch && circumstances.remoteHead.Some? && circumstances.enoughDisk
    && circumstances.freshWorktreeClean
  }

  /** What the database can hold after runs that may have crashed before their result was stored. */
  predicate Consistent(setting: Setting, clone: Clone, persisted: Persisted) {
    && (persisted.branch.Some? ==> persisted.branch.value == setting.branch)
    && (persisted.path.Some? ==> persisted.path.value == setting.path)
    && (persisted.base.Some? ==>
          setting.path in clone.worktrees && persisted.base == MarkerOf(clone, setting.branch).base)
  }

  /** The task's worktree stands, locked, on its branch, above the recorded base that `prepare` returned. */
  predicate Ready(setting: Setting, clone: Clone, prepared: Prepared) {
    && setting.path in clone.worktrees
    && clone.worktrees[setting.path].branch == setting.branch
    && clone.worktrees[setting.path].lockReason == setting.reason
    && MarkerOf(clone, setting.branch) == Marker(Some(setting.task), Some(prepared.base), Some(setting.path))
    && setting.isAncestor(prepared.base, clone.worktrees[setting.path].head)
    && (!prepared.reused ==> clone.worktrees[setting.path].head == prepared.base)
  }

  lemma FavourableRunSucceeds(setting: Setting, clone: Clone, circumstances: Circumstances, persisted: Persisted)
    requires Reflexive(setting) && Preparable(setting, clone) && Favourable(circumstances)
    requires Consistent(setting, clone, persisted)
    ensures var plan := PreparePlan(setting, clone, circumstances, persisted);
      plan.result.Ok? && Ready(setting, ApplyAll(setting, clone, plan.effects), plan.result.value)
  {
    if setting.path !in clone.worktrees {
      var hasBranch := setting.branch in clone.branches;
      var base := if hasBranch then clone.branches[setting.branch] else circumstances.remoteHead.value;
      PreliminaryAllowed(setting, clone, circumstances);
      MarksAllowed(setting, clone, Preliminary(setting, clone, circumstances), base, hasBranch);
    }
  }

  /**
   From whatever any number of crashed runs for the task left behind, one favourable run ends with the task's worktree
   at its recorded base.
   */
  lemma CrashedRunsConverge(setting: Setting, clone: Clone, runs: seq<Run>, circumstances: Circumstances,
                            persisted: Persisted)
    requires Reflexive(setting) && Preparable(setting, clone) && Favourable(circumstances)
    requires Consistent(setting, AfterRuns(setting, clone, runs), persisted)
    ensures var left := AfterRuns(setting, clone, runs);
      var plan := PreparePlan(setting, left, circumstances, persisted);
      plan.result.Ok? && Ready(setting, ApplyAll(setting, left, plan.effects), plan.result.value)
  {
    CrashesKeepPreparable(setting, clone, runs);
    FavourableRunSucceeds(setting, AfterRuns(setting, clone, runs), circumstances, persisted);
  }

  /** A clone that has never seen the task is where such runs begin. */
  lemma UnknownTaskIsPreparable(setting: Setting, clone: Clone)
    requires setting.branch != setting.baseBranch && setting.branch !in clone.branches
    requires setting.branch !in clone.markers
    requires setting.path !in clone.worktrees && setting.path !in clone.strays && !CheckedOut(clone, setting.branch)
    ensures Preparable(setting, clone)
  {
    assert forall path :: path in clone.worktrees ==> clone.worktrees[path].branch != setting.branch;
  }

  // ------------------------------------------------------------------ what is left alone

  ghost predicate Transitive(setting: Setting) {
    forall a, b, c :: setting.isAncestor(a, b) && setting.isAncestor(b, c) ==> setting.isAncestor(a, c)
  }

  /** A checkout of the base branch may follow it forward; every other worktree is as before. */
  predicate WorktreeKept(setting: Setting, before: Worktree, after: Worktree) {
    after == before || (before.branch == setting.baseBranch && after == before.(head := after.head))
  }

  /** Other branches, markers and worktrees are untouched, and the local base branch only moved forward. */
  ghost predicate LeftAlone(setting: Setting, before: Clone, after: Clone) {
    && (forall branch :: branch in before.branches && branch != setting.baseBranch
          ==> branch in after.branches && after.branches[branch] == before.branches[branch])
    && (forall branch :: branch in after.branches && branch !in before.branches ==> branch == setting.branch)
    && (setting.baseBranch in before.branches ==>
          setting.baseBranch in after.branches
            && setting.isAncestor(before.branches[setting.baseBranch], after.branches[setting.baseBranch]))
    && (forall branch :: branch != setting.branch ==> MarkerOf(after, branch) == MarkerOf(before, branch))
    && (forall path :: path in before.worktrees
          ==> path in after.worktrees && WorktreeKept(setting, before.worktrees[path], after.worktrees[path]))
    && (forall path :: path in after.worktrees && path !in before.worktrees
          ==> path == setting.path && after.worktrees[path].branch == setting.branch)
    && after.strays == before.strays
  }

  lemma EffectLeavesAlone(setting: Setting, clone: Clone, effect: Effect)
    requires Reflexive(setting) && Allowed(setting, clone, effect)
    ensures LeftAlone(setting, clone, Apply(setting, clone, effect))
  {
  }

  lemma LeftAloneJoins(setting: Setting, first: Clone, second: Clone, third: Clone)
    requires Transitive(setting) && LeftAlone(setting, first, second) && LeftAlone(setting, second, third)
    ensures LeftAlone(setting, first, third)
  {
  }

  lemma {:induction false} AllowedLeaveAlone(setting: Setting, clone: Clone, effects: seq<Effect>)
    requires Reflexive(setting) && Transitive(setting) && AllAllowed(setting, clone, effects)
    ensures LeftAlone(setting, clone, ApplyAll(setting, clone, effects))
  {
    if |effects| > 0 {
      var shorter := effects[..|effects| - 1];
      AllowedLeaveAlone(setting, clone, shorter);
      EffectLeavesAlone(setting, ApplyAll(setting, clone, shorter), effects[|effects| - 1]);
      LeftAloneJoins(setting, clone, ApplyAll(setting, clone, shorter), ApplyAll(setting, clone, effects));
    }
  }

  lemma {:induction false} PrefixAllowed(setting: Setting, clone: Clone, effects: seq<Effect>, crash: nat)
    requires AllAllowed(setting, clone, effects) && crash <= |effects|
    ensures AllAllowed(setting, clone, effects[..crash])
  {
    if crash < |effects| {
      PrefixAllowed(setting, clone, effects[..|effects| - 1], crash);
      assert effects[..|effects| - 1][..crash] == effects[..crash];
    } else {
      assert effects[..crash] == effects;
    }
  }

  /**
   No run, crashed or not, from any clone, touches what is not the task's; the local base branch only fast-forwards.
   */
  lemma {:induction false} RunsLeaveOthersAlone(setting: Setting, clone: Clone, runs: seq<Run>)
    requires Reflexive(setting) && Transitive(setting)
    ensures LeftAlone(setting, clone, AfterRuns(setting, clone, runs))
  {
    if |runs| > 0 {
      var before, last := AfterRuns(setting, clone, runs[..|runs| - 1]), runs[|runs| - 1];
      RunsLeaveOthersAlone(setting, clone, runs[..|runs| - 1]);
      var effects := PreparePlan(setting, before, last.circumstances, last.persisted).effects;
      var crash := if last.survived < |effects| then last.survived else |effects|;
      PrepareAllowed(setting, before, last.circumstances, last.persisted);
      PrefixAllowed(setting, before, effects, crash);
      AllowedLeaveAlone(setting, before, effects[..crash]);
      LeftAloneJoins(setting, clone, before, AfterRuns(setting, clone, runs));
    }
  }

  // ------------------------------------------------------------------ several tasks in one clone

  /** Another task of the same clone: its own branch and path, the same base branch and history. */
  ghost predicate Apart(setting: Setting, other: Setting) {
    && other.branch != setting.branch && other.path != setting.path
    && other.baseBranch == setting.baseBranch && other.isAncestor == setting.isAncestor
  }

  /** What leaves this task's branch, markers and worktree alone keeps the clone preparable for it. */
  lemma OthersKeepPreparable(setting: Setting, other: Setting, before: Clone, after: Clone)
    requires Apart(setting, other) && Preparable(setting, before) && LeftAlone(other, before, after)
    ensures Preparable(setting, after)
  {
    assert MarkerOf(after, setting.branch) == MarkerOf(before, setting.branch);
    assert setting.branch in after.branches <==> setting.branch in before.branches;
    assert setting.path in after.worktrees <==> setting.path in before.worktrees;
    forall path | path in after.worktrees && after.worktrees[path].branch == setting.branch
      ensures path in before.worktrees && before.worktrees[path].branch == setting.branch
    {
    }
  }

  /** Runs of any tasks of one clone, one after another, as the repository lock admits them. */
  datatype Visit = Visit(setting: Setting, run: Run)

  function AfterVisits(clone: Clone, visits: seq<Visit>): Clone {
    if |visits| == 0 then clone
    else
      var last := visits[|visits| - 1];
      Survived(last.setting, AfterVisits(clone, visits[..|visits| - 1]), last.run)
  }

  ghost predicate OneClone(setting: Setting, visits: seq<Visit>) {
    forall i :: 0 <= i < |visits| ==> visits[i].setting == setting || Apart(setting, visits[i].setting)
  }

  lemma OneRun(setting: Setting, clone: Clone, run: Run)
    ensures AfterRuns(setting, clone, [run]) == Survived(setting, clone, run)
  {
    assert [run][..0] == [];
    assert AfterRuns(setting, clone, []) == clone;
  }

  /** Crashed runs of any tasks, in any order, leave a clone from which each of them can still be prepared. */
  lemma {:induction false} VisitsKeepPreparable(setting: Setting, clone: Clone, visits: seq<Visit>)
    requires Reflexive(setting) && Transitive(setting) && Preparable(setting, clone) && OneClone(setting, visits)
    ensures Preparable(setting, AfterVisits(clone, visits))
  {
    hide Preparable, LeftAlone, Survived;
    if |visits| > 0 {
      var before, last := AfterVisits(clone, visits[..|visits| - 1]), visits[|visits| - 1];
      VisitsKeepPreparable(setting, clone, visits[..|visits| - 1]);
      OneRun(last.setting, before, last.run);
      if last.setting == setting {
        CrashesKeepPreparable(setting, before, [last.run]);
      } else {
        RunsLeaveOthersAlone(last.setting, before, [last.run]);
        OthersKeepPreparable(setting, last.setting, before, AfterVisits(clone, visits));
      }
    }
  }

  /** After crashed runs of this task and of others in any order, one favourable run of this task succeeds. */
  lemma InterleavedRunsConverge(setting: Setting, clone: Clone, visits: seq<Visit>, circumstances: Circumstances,
                                persisted: Persisted)
    requires Reflexive(setting) && Transitive(setting) && Preparable(setting, clone) && OneClone(setting, visits)
    requires Favourable(circumstances) && Consistent(setting, AfterVisits(clone, visits), persisted)
    ensures var left := AfterVisits(clone, visits);
      var plan := PreparePlan(setting, left, circumstances, persisted);
      plan.result.Ok? && Ready(setting, ApplyAll(setting, left, plan.effects), plan.result.value)
  {
    VisitsKeepPreparable(setting, clone, visits);
    FavourableRunSucceeds(setting, AfterVisits(clone, visits), circumstances, persisted);
  }

  // ------------------------------------------------------------------ which runs succeed

  /** The request is proper, and agrees with what is stored for the task. */
  predicate ProperRequest(setting: Setting, circumstances: Circumstances, persisted: Persisted) {
    && circumstances.validName && setting.branch != setting.baseBranch && circumstances.repositoryVerified
    && (persisted.branch.None? || persisted.branch.value == setting.branch)
    && (persisted.path.None? || persisted.path.value == setting.path)
  }

  /** No other worktree has the task's branch checked out. */
  predicate NotElsewhere(setting: Setting, clone: Clone) {
    forall path :: path in clone.worktrees && clone.worktrees[path].branch == setting.branch ==> path == setting.path
  }

  /** The task's worktree is there, locked, marked as its own, and goes on from the base it was made at. */
  predicate MayReuse(setting: Setting, clone: Clone, persisted: Persisted) {
    && setting.path in clone.worktrees && setting.branch in clone.markers && NotElsewhere(setting, clone)
    && var marker, worktree := clone.markers[setting.branch], clone.worktrees[setting.path];
       && worktree.branch == setting.branch && worktree.lockReason == setting.reason
       && marker.task == Some(setting.task) && marker.worktree == Some(setting.path) && marker.base.Some?
       && setting.isAncestor(marker.base.value, worktree.head)
       && (persisted.base.None? || persisted.base == marker.base)
  }

  /** There is no worktree, and what there is of the branch is the task's own and unmoved. */
  predicate MayCreate(setting: Setting, clone: Clone, circumstances: Circumstances, persisted: Persisted) {
    && setting.path !in clone.worktrees && setting.path !in clone.strays && persisted.base.None?
    && NotElsewhere(setting, clone)
    && (setting.branch in clone.markers && clone.markers[setting.branch].task.Some? ==>
          clone.markers[setting.branch].task.value == setting.task)
    && (if setting.branch in clone.branches then
          && setting.branch in clone.markers && clone.markers[setting.branch].task == Some(setting.task)
          && clone.markers[setting.branch].base == Some(clone.branches[setting.branch])
        else circumstances.reachable ==> circumstances.remoteHead.Some? || circumstances.remoteTaskBranch)
  }

  /** The remote can be reached and knows nothing of the branch, and the host can hold a clean worktree. */
  predicate Conducive(circumstances: Circumstances) {
    && circumstances.reachable && !circumstances.remoteTaskBranch && circumstances.enoughDisk
    && circumstances.freshWorktreeClean
  }

  /**
   A run succeeds exactly when the request is proper and it either finds the task's own worktree, or finds nothing that
   stands against making one in conducive circumstances; it reuses in the first case only, at the recorded base.
   */
  lemma SucceedsExactlyWhen(setting: Setting, clone: Clone, circumstances: Circumstances, persisted: Persisted)
    ensures var result := PreparePlan(setting, clone, circumstances, persisted).result;
      && (result.Ok? <==>
            && ProperRequest(setting, circumstances, persisted)
            && (MayReuse(setting, clone, persisted)
                || (MayCreate(setting, clone, circumstances, persisted) && Conducive(circumstances))))
      && (result.Ok? ==> (result.value.reused <==> setting.path in clone.worktrees))
      && (result.Ok? && result.value.reused ==> Some(result.value.base) == clone.markers[setting.branch].base)
      && (result.Ok? && !result.value.reused ==>
            result.value.base == if setting.branch in clone.branches then clone.branches[setting.branch]
                                 else circumstances.remoteHead.value)
  {
    if setting.path in clone.worktrees {
      ForeignMeans(setting, clone);
    }
    ForeignMeans(setting, clone);
  }

  lemma ForeignMeans(setting: Setting, clone: Clone)
    ensures !Foreign(setting, clone)
       <==> && NotElsewhere(setting, clone)
            && (MarkerOf(clone, setting.branch).task.Some? ==>
                  MarkerOf(clone, setting.branch).task.value == setting.task)
            && (MarkerOf(clone, setting.branch).task.None? ==>
                  setting.branch !in clone.branches && setting.path !in clone.worktrees
                  && !CheckedOut(clone, setting.branch))
  {
  }

  /** A run that cannot reach the remote, or is refused before it fetches, leaves the clone as it was. */
  lemma RefusalLeavesNothing(setting: Setting, clone: Clone, circumstances: Circumstances, persisted: Persisted)
    ensures var plan := PreparePlan(setting, clone, circumstances, persisted);
      && (plan.result == Err(RemoteUnavailable) <==>
            ProperRequest(setting, circumstances, persisted) && !circumstances.reachable
              && MayCreate(setting, clone, circumstances, persisted))
      && (plan.effects != [] ==>
            && ProperRequest(setting, circumstances, persisted) && circumstances.reachable
            && !circumstances.remoteTaskBranch && MayCreate(setting, clone, circumstances, persisted))
      && (setting.path in clone.worktrees ==> plan.effects == [])
  {
    ForeignMeans(setting, clone);
  }

  /** The local base branch may follow to `commit`: it is behind it, and a checkout of it can follow too. */
  predicate MayFollow(setting: Setting, clone: Clone, circumstances: Circumstances, commit: CommitId) {
    && setting.baseBranch in clone.branches && clone.branches[setting.baseBranch] != commit
    && setting.isAncestor(clone.branches[setting.baseBranch], commit)
    && ((exists path :: path in clone.worktrees && clone.worktrees[path].branch == setting.baseBranch)
        ==> circumstances.checkoutAdvances)
  }

  /**
   A run that makes the branch fetches the remote base first, and moves the local base branch to it exactly when that
   only goes forward; it reports the base as updated exactly when the two are the same afterwards.
   */
  lemma BaseFollowsExactlyWhen(setting: Setting, clone: Clone, circumstances: Circumstances, persisted: Persisted)
    requires ProperRequest(setting, circumstances, persisted) && Conducive(circumstances)
    requires MayCreate(setting, clone, circumstances, persisted) && setting.branch !in clone.branches
    ensures var plan, remote := PreparePlan(setting, clone, circumstances, persisted), circumstances.remoteHead.value;
      && plan.effects[0] == FetchBase(remote)
      && (AdvanceBase(remote) in plan.effects <==> MayFollow(setting, clone, circumstances, remote))
      && plan.result.Ok?
      && (plan.result.value.localBaseUpdated <==>
            || MayFollow(setting, clone, circumstances, remote)
            || (setting.baseBranch in clone.branches && clone.branches[setting.baseBranch] == remote))
  {
    SucceedsExactlyWhen(setting, clone, circumstances, persisted);
    var remote := circumstances.remoteHead.value;
    var fetched := Apply(setting, clone, FetchBase(remote));
    assert MayAdvance(setting, fetched, circumstances) <==> MayFollow(setting, clone, circumstances, remote);
  }
}
