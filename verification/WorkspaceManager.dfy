/** `prepare` in the form it runs in, one Git effect at a time, and the push that never forces. */
module WorkspaceManager {
  import opened Wrappers
  import opened Workspace

  /** The remote task branch relative to a reviewed commit. */
  datatype RemoteState = Absent | AtCommit | ContainsCommit | DivergedFrom

  datatype PushError = NotOwned | OtherHead | ChangedDuringPush | UnknownOutcome | NotAtCommit

  /** The worktree is registered, owned and locked by the task, and its head is the head of the task's branch. */
  predicate Owned(setting: Setting, clone: Clone, base: CommitId) {
    && setting.path in clone.worktrees && MarkerOf(clone, setting.branch).task == Some(setting.task)
    && Reusable(setting, clone, Persisted(Some(setting.path), Some(setting.branch), Some(base)))
    && setting.branch in clone.branches && clone.branches[setting.branch] == clone.worktrees[setting.path].head
  }

  function FreshBase(setting: Setting, clone: Clone, circumstances: Circumstances): CommitId
    requires setting.branch in clone.branches || circumstances.remoteHead.Some?
  {
    if setting.branch in clone.branches then clone.branches[setting.branch] else circumstances.remoteHead.value
  }

  function Fetched(setting: Setting, clone: Clone, circumstances: Circumstances): Clone
    requires setting.branch in clone.branches || circumstances.remoteHead.Some?
  {
    if setting.branch in clone.branches then clone else Apply(setting, clone, FetchBase(circumstances.remoteHead.value))
  }

  /** The plan from the fetch on. */
  function FreshPlan(setting: Setting, clone: Clone, circumstances: Circumstances): Plan
    requires setting.branch in clone.branches || circumstances.remoteHead.Some?
  {
    var base, preliminary := FreshBase(setting, clone, circumstances), Preliminary(setting, clone, circumstances);
    if !circumstances.enoughDisk then Plan(preliminary, Err(NeedsOperator))
    else
      Plan(preliminary + MarkersAndWorktree(setting, base, setting.branch in clone.branches),
           if !circumstances.freshWorktreeClean then Err(NeedsOperator)
           else Ok(Prepared(base, false, BaseUpdated(setting, Fetched(setting, clone, circumstances), circumstances))))
  }

  lemma FreshIsPlanned(setting: Setting, clone: Clone, circumstances: Circumstances, persisted: Persisted)
    requires circumstances.validName && setting.branch != setting.baseBranch && circumstances.repositoryVerified
    requires !Foreign(setting, clone)
    requires persisted.branch.Some? ==> persisted.branch.value == setting.branch
    requires persisted.path.Some? ==> persisted.path.value == setting.path
    requires setting.path !in clone.worktrees && persisted.base.None? && setting.path !in clone.strays
    requires setting.branch in clone.branches
            ==> MarkerOf(clone, setting.branch).base == Some(clone.branches[setting.branch])
    requires circumstances.reachable && !circumstances.remoteTaskBranch
    requires setting.branch in clone.branches || circumstances.remoteHead.Some?
    ensures PreparePlan(setting, clone, circumstances, persisted) == FreshPlan(setting, clone, circumstances)
  {
  }

  class Manager {
    const setting: Setting
    var branches: map<BranchName, CommitId>
    var markers: map<BranchName, Marker>
    var worktrees: map<Path, Worktree>
    var remoteBase: Option<CommitId>
    var strays: set<Path>
    /** The task branch on the remote. */
    var remoteBranch: Option<CommitId>
    ghost var trace: seq<Effect>

    constructor (setting: Setting, clone: Clone, remoteBranch: Option<CommitId>)
      ensures this.setting == setting && View() == clone && trace == [] && this.remoteBranch == remoteBranch
    {
      this.setting, this.remoteBranch := setting, remoteBranch;
      branches, markers, worktrees := clone.branches, clone.markers, clone.worktrees;
      remoteBase, strays := clone.remoteBase, clone.strays;
      trace := [];
    }

    ghost function View(): Clone
      reads this
    {
      Clone(branches, markers, worktrees, remoteBase, strays)
    }

    /** Exactly these effects, in this order, turned the old clone into the new one. */
    twostate predicate Did(effects: seq<Effect>)
      reads this
    {
      && trace == old(trace) + effects
      && View() == ApplyAll(setting, old(View()), effects)
      && remoteBranch == old(remoteBranch)
    }

    /** One effect on the clone. */
    method Perform(effect: Effect)
      modifies this
      ensures Did([effect]) && View() == Apply(setting, old(View()), effect)
    {
      ApplyNext(setting, View(), [], effect);
      assert [] + [effect] == [effect];
      match effect {
        case FetchBase(commit) =>
          remoteBase := Some(commit);
        case AdvanceBase(commit) =>
          branches := branches[setting.baseBranch := commit];
          worktrees := map path | path in worktrees ::
            if worktrees[path].branch == setting.baseBranch then worktrees[path].(head := commit) else worktrees[path];
        case SetTask(branch, task) =>
          var marker := if branch in markers then markers[branch] else Marker(None, None, None);
          markers := markers[branch := marker.(task := Some(task))];
        case SetBase(branch, base) =>
          var marker := if branch in markers then markers[branch] else Marker(None, None, None);
          markers := markers[branch := marker.(base := Some(base))];
        case SetWorktree(branch, path) =>
          var marker := if branch in markers then markers[branch] else Marker(None, None, None);
          markers := markers[branch := marker.(worktree := Some(path))];
        case CreateBranch(branch, at) =>
          branches := branches[branch := at];
        case AddWorktree(path, branch, reason) =>
          if branch in branches {
            worktrees := worktrees[path := Worktree(branch, reason, branches[branch])];
          }
      }
      trace := trace + [effect];
    }

    /** Proves that the registered worktree is this task's own. */
    method VerifyReusableWorktree(persisted: Persisted) returns (base: Option<CommitId>)
      requires setting.path in worktrees
      ensures base.Some? <==> Reusable(setting, View(), persisted)
      ensures base.Some? ==> base == MarkerOf(View(), setting.branch).base
    {
      var worktree := worktrees[setting.path];
      var marker := if setting.branch in markers then markers[setting.branch] else Marker(None, None, None);
      if worktree.branch != setting.branch || worktree.lockReason != setting.reason {
        return None;
      }
      if marker.base.None? || marker.worktree != Some(setting.path) {
        return None;
      }
      if persisted.base.Some? && persisted.base != marker.base {
        return None;
      }
      if !setting.isAncestor(marker.base.value, worktree.head) {
        return None;
      }
      return marker.base;
    }

    /** Best-effort fast-forward of the local base branch; it never rewrites it. */
    method FastForwardLocalBase(circumstances: Circumstances) returns (updated: bool)
      modifies this
      ensures Did(if MayAdvance(setting, old(View()), circumstances) then [AdvanceBase(old(remoteBase).value)] else [])
      ensures updated <==> BaseUpdated(setting, old(View()), circumstances)
    {
      if setting.baseBranch !in branches || remoteBase.None? {
        return false;
      }
      var local, remote := branches[setting.baseBranch], remoteBase.value;
      if local == remote {
        return true;
      }
      if !setting.isAncestor(local, remote) {
        return false;
      }
      if exists path :: path in worktrees && worktrees[path].branch == setting.baseBranch {
        if !circumstances.checkoutAdvances {
          return false;
        }
      }
      Perform(AdvanceBase(remote));
      return true;
    }

    method WriteMarker(base: CommitId)
      modifies this
      ensures Did([SetTask(setting.branch, setting.task), SetBase(setting.branch, base),
                   SetWorktree(setting.branch, setting.path)])
      ensures branches == old(branches)
    {
      ghost var start := View();
      Perform(SetTask(setting.branch, setting.task));
      Perform(SetBase(setting.branch, base));
      Perform(SetWorktree(setting.branch, setting.path));
      ghost var one, two := SetTask(setting.branch, setting.task), SetBase(setting.branch, base);
      ghost var three := SetWorktree(setting.branch, setting.path);
      ApplyNext(setting, start, [one], two);
      ApplyNext(setting, start, [one] + [two], three);
      ApplyNext(setting, start, [], one);
      assert [] + [one] == [one] && [one] + [two] + [three] == [one, two, three];
    }

    /** Adds the locked worktree, on a new branch at `base` or on the branch a crashed run left there. */
    method AddLockedWorktree(base: CommitId, hasBranch: bool)
      modifies this
      ensures Did((if hasBranch then [] else [CreateBranch(setting.branch, base)])
                  + [AddWorktree(setting.path, setting.branch, setting.reason)])
    {
      ghost var start := View();
      if !hasBranch {
        Perform(CreateBranch(setting.branch, base));
      }
      Perform(AddWorktree(setting.path, setting.branch, setting.reason));
      ApplyJoined(setting, start, if hasBranch then [] else [CreateBranch(setting.branch, base)],
                  [AddWorktree(setting.path, setting.branch, setting.reason)]);
    }

    /** The checks that only read: refuse what is not provably this task's. */
    predicate Refuses(circumstances: Circumstances, persisted: Persisted)
      reads this
    {
      var clone := Clone(branches, markers, worktrees, remoteBase, strays);
      || !circumstances.validName || setting.branch == setting.baseBranch
      || (persisted.branch.Some? && persisted.branch.value != setting.branch)
      || (persisted.path.Some? && persisted.path.value != setting.path)
      || !circumstances.repositoryVerified || Foreign(setting, clone)
    }

    method Prepare(circumstances: Circumstances, persisted: Persisted) returns (result: Result<Prepared, PrepareError>)
      modifies this
      ensures var plan := PreparePlan(setting, old(View()), circumstances, persisted);
        Did(plan.effects) && result == plan.result
    {
      if Refuses(circumstances, persisted) {
        return Err(NeedsOperator);
      }
      if setting.path in worktrees {
        var base := VerifyReusableWorktree(persisted);
        return if base.Some? then Ok(Prepared(base.value, true, false)) else Err(NeedsOperator);
      }
      if persisted.base.Some? || setting.path in strays {
        return Err(NeedsOperator);
      }
      var marker := if setting.branch in markers then markers[setting.branch] else Marker(None, None, None);
      var local := if setting.branch in branches then Some(branches[setting.branch]) else None;
      if local.Some? && local != marker.base {
        return Err(NeedsOperator);
      }
      if !circumstances.reachable {
        return Err(RemoteUnavailable);
      }
      if circumstances.remoteTaskBranch || (local.None? && circumstances.remoteHead.None?) {
        return Err(NeedsOperator);
      }
      FreshIsPlanned(setting, View(), circumstances, persisted);
      result := PrepareFresh(circumstances, local);
    }

    /** From the fetch on: base, fast-forward, disk, markers, worktree. */
    method PrepareFresh(circumstances: Circumstances, local: Option<CommitId>)
      returns (result: Result<Prepared, PrepareError>)
      requires local == LocalBranch(setting, View()) && (local.Some? || circumstances.remoteHead.Some?)
      modifies this
      ensures var plan := FreshPlan(setting, old(View()), circumstances);
        Did(plan.effects) && result == plan.result
    {
      ghost var start := View();
      var base, updated := FetchAndAdvance(circumstances, local);
      if !circumstances.enoughDisk {
        return Err(NeedsOperator);
      }
      MarkAndAdd(base, local.Some?);
      ApplyJoined(setting, start, Preliminary(setting, start, circumstances),
                  MarkersAndWorktree(setting, base, local.Some?));
      return if circumstances.freshWorktreeClean then Ok(Prepared(base, false, updated)) else Err(NeedsOperator);
    }

    method FetchAndAdvance(circumstances: Circumstances, local: Option<CommitId>)
      returns (base: CommitId, updated: bool)
      requires local == LocalBranch(setting, View()) && (local.Some? || circumstances.remoteHead.Some?)
      modifies this
      ensures Did(Preliminary(setting, old(View()), circumstances))
      ensures base == FreshBase(setting, old(View()), circumstances)
      ensures updated <==> BaseUpdated(setting, Fetched(setting, old(View()), circumstances), circumstances)
    {
      ghost var start := View();
      base := if local.Some? then local.value else circumstances.remoteHead.value;
      if local.None? {
        Perform(FetchBase(base));
      }
      ghost var current := View();
      updated := FastForwardLocalBase(circumstances);
      ApplyJoined(setting, start, if local.Some? then [] else [FetchBase(base)],
        if MayAdvance(setting, current, circumstances) then [AdvanceBase(current.remoteBase.value)] else []);
    }

    method MarkAndAdd(base: CommitId, hasBranch: bool)
      modifies this
      ensures Did(MarkersAndWorktree(setting, base, hasBranch))
    {
      MarksTogether(View(), base, hasBranch);
      WriteMarker(base);
      AddLockedWorktree(base, hasBranch);
    }

    lemma MarksTogether(clone: Clone, base: CommitId, hasBranch: bool)
      ensures var marks := [SetTask(setting.branch, setting.task), SetBase(setting.branch, base),
                            SetWorktree(setting.branch, setting.path)];
        var adding := (if hasBranch then [] else [CreateBranch(setting.branch, base)])
                      + [AddWorktree(setting.path, setting.branch, setting.reason)];
        && MarkersAndWorktree(setting, base, hasBranch) == marks + adding
        && ApplyAll(setting, clone, marks + adding) == ApplyAll(setting, ApplyAll(setting, clone, marks), adding)
    {
      var marks := [SetTask(setting.branch, setting.task), SetBase(setting.branch, base),
                    SetWorktree(setting.branch, setting.path)];
      var adding := (if hasBranch then [] else [CreateBranch(setting.branch, base)])
                    + [AddWorktree(setting.path, setting.branch, setting.reason)];
      ApplyJoined(setting, clone, marks, adding);
      assert marks + (if hasBranch then [] else [CreateBranch(setting.branch, base)])
             + [AddWorktree(setting.path, setting.branch, setting.reason)]
          == marks + adding;
    }

    // ---------------------------------------------------------------- the push

    function RemoteStateOf(remote: Option<CommitId>, commit: CommitId): RemoteState {
      if remote.None? then Absent
      else if remote.value == commit then AtCommit
      else if setting.isAncestor(commit, remote.value) then ContainsCommit
      else DivergedFrom
    }

    /** The head of the worktree, if it is provably this task's. */
    method VerifyOwnedWorkspace(base: CommitId) returns (head: Option<CommitId>)
      ensures head.Some? <==> Owned(setting, View(), base)
      ensures head.Some? ==> head == Some(worktrees[setting.path].head)
    {
      if setting.path !in worktrees {
        return None;
      }
      var marker := if setting.branch in markers then markers[setting.branch] else Marker(None, None, None);
      if marker.task != Some(setting.task) {
        return None;
      }
      var recorded := VerifyReusableWorktree(Persisted(Some(setting.path), Some(setting.branch), Some(base)));
      if recorded.None? || setting.branch !in branches {
        return None;
      }
      var found := worktrees[setting.path].head;
      return if branches[setting.branch] == found then Some(found) else None;
    }

    /**
     Pushes a reviewed commit. `race` is what somebody else may have pushed between the look and the push, `later` what
     somebody may have made of the branch between the push and the second look, `lands` whether the push reaches the
     remote, and `answered` whether its answer arrives. Git accepts an unforced push only as a creation or a
     fast-forward.
     */
    method PushTaskBranch(base: CommitId, commit: CommitId, race: Option<CommitId>, lands: bool, answered: bool,
                          later: Option<CommitId>)
      returns (state: Result<RemoteState, PushError>)
      requires setting.isAncestor(commit, commit)
      modifies this`remoteBranch
      ensures state.Ok? ==> Owned(setting, View(), base) && worktrees[setting.path].head == commit
      ensures !state.Ok? && state.error in {NotOwned, OtherHead} ==> remoteBranch == old(remoteBranch)
      ensures var met := if old(remoteBranch).None? && race.Some? then race else old(remoteBranch);
        met.Some? ==>
          || remoteBranch == old(remoteBranch) || remoteBranch == met
          || (remoteBranch.Some? && setting.isAncestor(met.value, remoteBranch.value)) || remoteBranch == later
      ensures old(remoteBranch).Some? ==>
        remoteBranch == old(remoteBranch) && (state.Ok? ==> state.value == RemoteStateOf(remoteBranch, commit))
      ensures state.Ok? && !state.value.DivergedFrom? ==>
        remoteBranch.Some? && setting.isAncestor(commit, remoteBranch.value)
      ensures state.Ok? && old(remoteBranch).None? ==> remoteBranch == Some(commit)
    {
      var head := VerifyOwnedWorkspace(base);
      if head.None? {
        return Err(NotOwned);
      }
      if head.value != commit {
        return Err(OtherHead);
      }
      var before := RemoteStateOf(remoteBranch, commit);
      if before != Absent {
        return Ok(before);
      }
      if race.Some? {
        remoteBranch := race;
      }
      if remoteBranch.Some? && remoteBranch.value != commit && !setting.isAncestor(remoteBranch.value, commit) {
        return Err(ChangedDuringPush);
      }
      if lands {
        remoteBranch := Some(commit);
      }
      if !lands || !answered {
        return Err(UnknownOutcome);
      }
      if later.Some? {
        remoteBranch := later;
      }
      var after := RemoteStateOf(remoteBranch, commit);
      return if after == AtCommit then Ok(after) else Err(NotAtCommit);
    }
  }
}
