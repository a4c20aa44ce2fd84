/**
 What the dependencies of an accepted backlog hold back: nothing for ever, as long as nothing is cancelled, and exactly
 what stands behind a cancelled task otherwise.
 */
module Dependencies {
  import opened Wrappers
  import opened Domain
  import opened Tasks
  import opened TaskActions
  import opened TaskRuns
  import opened TaskLimits
  import Planning

  /** The table's dependencies are those of the backlog. */
  ghost predicate Mirrors(db: Db, issues: seq<Planning.Issue>) {
    && db.tasks.Keys == Planning.KeysOf(issues)
    && forall id, blocker :: id in db.tasks ==>
         (blocker in db.tasks[id].blockers <==> Planning.Blocks(issues, blocker, id))
  }

  predicate CreatesNothing(actions: seq<Action>) {
    forall i :: 0 <= i < |actions| ==> !actions[i].Create?
  }

  lemma MirrorsStep(config: Config, db: Db, issues: seq<Planning.Issue>, action: Action)
    requires Mirrors(db, issues) && !action.Create?
    ensures Mirrors(Perform(config, db, action), issues)
  {
    PerformShape(config, db, action);
    var after := Perform(config, db, action);
    assert after.tasks.Keys == db.tasks.Keys;
    assert forall id :: id in db.tasks ==> after.tasks[id].blockers == db.tasks[id].blockers;
  }

  lemma {:induction false} MirrorsInEveryRun(config: Config, start: Db, issues: seq<Planning.Issue>,
                                             actions: seq<Action>)
    requires Mirrors(start, issues) && CreatesNothing(actions)
    ensures Mirrors(PerformAll(config, start, actions), issues)
  {
    if |actions| > 0 {
      MirrorsInEveryRun(config, start, issues, actions[..|actions| - 1]);
      MirrorsStep(config, PerformAll(config, start, actions[..|actions| - 1]), issues, actions[|actions| - 1]);
    }
  }

  // ------------------------------------------------------------------ what the dependencies hold back

  /** Neither completed nor cancelled: something may still become of the task. */
  predicate Open(db: Db, id: TaskId) {
    id in db.tasks && db.tasks[id].state !in TERMINAL_STATES
  }

  /** Blockers, each of the next, ending in `id`. */
  ghost predicate Chain(issues: seq<Planning.Issue>, path: seq<TaskId>, id: TaskId) {
    && |path| >= 2 && path[|path| - 1] == id
    && forall i :: 0 <= i < |path| - 1 ==> Planning.Blocks(issues, path[i], path[i + 1])
  }

  ghost predicate FromCancelled(db: Db, issues: seq<Planning.Issue>, path: seq<TaskId>, id: TaskId) {
    Chain(issues, path, id) && path[0] in db.tasks && db.tasks[path[0]].state == Cancelled
  }

  /** A task has a cancelled blocker, direct or transitive. */
  ghost predicate Starved(db: Db, issues: seq<Planning.Issue>, id: TaskId) {
    exists path :: FromCancelled(db, issues, path, id)
  }

  predicate Started(log: seq<Transition>, id: TaskId) {
    exists i :: 0 <= i < |log| && IsStart(log[i]) && log[i].taskId == id
  }

  /** A history without a start has not left the states in front of the first stage. */
  lemma {:induction false} Unstarted(log: seq<Transition>, id: TaskId)
    requires !Started(log, id)
    ensures Walk(log, id).Some? ==> Walk(log, id).value in {Queued, Blocked, Cancelled}
  {
    if |log| > 0 {
      var shorter, last := log[..|log| - 1], log[|log| - 1];
      assert forall i :: 0 <= i < |shorter| ==> shorter[i] == log[i];
      Unstarted(shorter, id);
      assert last.taskId == id ==> !IsStart(last);
    }
  }

  /** What every run over the backlog keeps. */
  ghost predicate Kept(db: Db, issues: seq<Planning.Issue>) {
    Mirrors(db, issues) && HistoryKept(db) && DependenciesKept(db)
  }

  lemma KeptInEveryRun(config: Config, start: Db, issues: seq<Planning.Issue>, actions: seq<Action>)
    requires Initial(start) && Mirrors(start, issues) && CreatesNothing(actions)
    ensures Kept(PerformAll(config, start, actions), issues)
  {
    MirrorsInEveryRun(config, start, issues, actions);
    HistoryIsALegalWalk(config, start, actions);
    StartedTasksHaveCompletedBlockers(config, start, actions);
  }

  lemma CompletedHasCompletedBlockers(db: Db, issues: seq<Planning.Issue>, id: TaskId)
    requires Kept(db, issues) && id in db.tasks && db.tasks[id].state == Completed
    ensures BlockersCompleted(db, db.tasks[id])
  {
    if !Started(db.log, id) {
      Unstarted(db.log, id);
    }
  }

  /** Where the blockers of a task are completed, so is everything before them. */
  lemma {:induction false} ChainIsCompleted(db: Db, issues: seq<Planning.Issue>, path: seq<TaskId>, id: TaskId)
    requires Kept(db, issues) && Chain(issues, path, id) && id in db.tasks && BlockersCompleted(db, db.tasks[id])
    ensures path[0] in db.tasks && db.tasks[path[0]].state == Completed
  {
    var n := |path| - 1;
    assert Planning.Blocks(issues, path[n - 1], path[n]);
    var blocker := path[n - 1];
    assert blocker in db.tasks[id].blockers && blocker in db.tasks;
    if n > 1 {
      CompletedHasCompletedBlockers(db, issues, blocker);
      var shorter := path[..n];
      forall i | 0 <= i < |shorter| - 1 ensures Planning.Blocks(issues, shorter[i], shorter[i + 1]) {
        assert shorter[i] == path[i] && shorter[i + 1] == path[i + 1];
      }
      ChainIsCompleted(db, issues, shorter, blocker);
    }
  }

  /** A task whose blockers are completed has no cancelled one behind them either. */
  lemma FreeIsNotStarved(db: Db, issues: seq<Planning.Issue>, id: TaskId)
    requires Kept(db, issues) && id in db.tasks && BlockersCompleted(db, db.tasks[id])
    ensures !Starved(db, issues, id)
  {
    forall path ensures !FromCancelled(db, issues, path, id) {
      if Chain(issues, path, id) {
        ChainIsCompleted(db, issues, path, id);
      }
    }
  }

  lemma StarvedByBlocker(db: Db, issues: seq<Planning.Issue>, blocker: TaskId, id: TaskId)
    requires Planning.Blocks(issues, blocker, id)
    requires blocker in db.tasks && (db.tasks[blocker].state == Cancelled || Starved(db, issues, blocker))
    ensures Starved(db, issues, id)
  {
    if db.tasks[blocker].state == Cancelled {
      assert FromCancelled(db, issues, [blocker, id], id);
    } else {
      var path :| FromCancelled(db, issues, path, blocker);
      var longer := path + [id];
      forall i | 0 <= i < |longer| - 1 ensures Planning.Blocks(issues, longer[i], longer[i + 1]) {
        assert longer[i] == path[i];
        assert i < |path| - 1 ==> longer[i + 1] == path[i + 1];
      }
      assert FromCancelled(db, issues, longer, id);
    }
  }

  lemma FreeTask(db: Db, issues: seq<Planning.Issue>, hopeful: set<TaskId>, id: TaskId)
    requires Mirrors(db, issues) && Open(db, id) && id in hopeful && !Planning.BlockedWithin(issues, hopeful, id)
    requires forall other :: other in hopeful <==> Open(db, other) && !Starved(db, issues, other)
    ensures BlockersCompleted(db, db.tasks[id])
  {
    forall blocker | blocker in db.tasks[id].blockers && blocker in db.tasks
      ensures db.tasks[blocker].state == Completed
    {
      assert Planning.Blocks(issues, blocker, id);
      assert blocker !in hopeful;
      assert !Starved(db, issues, id);
      if db.tasks[blocker].state == Cancelled || Starved(db, issues, blocker) {
        StarvedByBlocker(db, issues, blocker, id);
      }
    }
  }

  ghost predicate SomeFree(db: Db) {
    exists id :: Open(db, id) && BlockersCompleted(db, db.tasks[id])
  }

  ghost predicate SomeUnstarved(db: Db, issues: seq<Planning.Issue>) {
    exists id :: Open(db, id) && !Starved(db, issues, id)
  }

  /**
   Whatever has happened to the tasks of an acyclic backlog: the dependencies let some open task go on if and only if
   some open task has no cancelled blocker, direct or transitive.
   */
  lemma QueueMovesExactlyWhileUnstarved(config: Config, start: Db, issues: seq<Planning.Issue>, actions: seq<Action>)
    requires Initial(start) && Mirrors(start, issues) && !Planning.HasCycle(issues) && CreatesNothing(actions)
    ensures var db := PerformAll(config, start, actions);
      SomeFree(db) <==> SomeUnstarved(db, issues)
  {
    hide PerformAll, Starved;
    var db := PerformAll(config, start, actions);
    KeptInEveryRun(config, start, issues, actions);
    if SomeFree(db) {
      var id :| Open(db, id) && BlockersCompleted(db, db.tasks[id]);
      FreeIsNotStarved(db, issues, id);
    }
    if SomeUnstarved(db, issues) {
      var hopeful := set id | id in db.tasks && Open(db, id) && !Starved(db, issues, id);
      var some :| Open(db, some) && !Starved(db, issues, some);
      assert some in hopeful;
      Planning.SomeIssueIsFree(issues, hopeful);
      var id :| id in hopeful && !Planning.BlockedWithin(issues, hopeful, id);
      FreeTask(db, issues, hopeful, id);
    }
  }

  /** While nothing has been cancelled, an open task means that some open task has all its blockers completed. */
  lemma QueueNeverDeadlocks(config: Config, start: Db, issues: seq<Planning.Issue>, actions: seq<Action>, open: TaskId)
    requires Initial(start) && Mirrors(start, issues) && !Planning.HasCycle(issues) && CreatesNothing(actions)
    requires Open(PerformAll(config, start, actions), open)
    requires forall id :: id in PerformAll(config, start, actions).tasks
               ==> PerformAll(config, start, actions).tasks[id].state != Cancelled
    ensures SomeFree(PerformAll(config, start, actions))
  {
    hide PerformAll;
    QueueMovesExactlyWhileUnstarved(config, start, issues, actions);
    assert !Starved(PerformAll(config, start, actions), issues, open);
  }

  // ------------------------------------------------------------------ cancelled blockers

  /** In every run a task with a cancelled blocker, direct or transitive, has not started and cannot be claimed. */
  lemma StarvedNeverStarts(config: Config, start: Db, issues: seq<Planning.Issue>, actions: seq<Action>, id: TaskId)
    requires Initial(start) && Mirrors(start, issues) && CreatesNothing(actions)
    requires Starved(PerformAll(config, start, actions), issues, id)
    ensures !Started(PerformAll(config, start, actions).log, id)
    ensures forall worker, lane, handlers, override {:trigger ClaimInputNow(config, PerformAll(config, start, actions),
                                                              worker, lane, handlers, override)} ::
      !Candidate(PerformAll(config, start, actions),
        ClaimInputNow(config, PerformAll(config, start, actions), worker, lane, handlers, override), id)
  {
    hide PerformAll;
    var db := PerformAll(config, start, actions);
    KeptInEveryRun(config, start, issues, actions);
    if id in db.tasks {
      if BlockersCompleted(db, db.tasks[id]) {
        FreeIsNotStarved(db, issues, id);
      }
      assert !Started(db.log, id);
      Unstarted(db.log, id);
    }
  }

  /** Cancellation is for good, and so is what it starves. */
  lemma StarvedStays(config: Config, start: Db, issues: seq<Planning.Issue>, actions: seq<Action>, id: TaskId)
    requires Starved(start, issues, id)
    ensures Starved(PerformAll(config, start, actions), issues, id)
  {
    var path :| FromCancelled(start, issues, path, id);
    FinishedStays(config, start, actions, path[0]);
    assert FromCancelled(PerformAll(config, start, actions), issues, path, id);
  }

  /** Two issues, the second blocked by the first; an operator cancels the first. */
  function TwoIssues(first: TaskId, second: TaskId): seq<Planning.Issue> {
    [Planning.Issue(first, []), Planning.Issue(second, [first])]
  }

  lemma TwoIssuesAcyclic(first: TaskId, second: TaskId)
    requires first != second
    ensures !Planning.HasCycle(TwoIssues(first, second))
    ensures forall blocker, id :: Planning.Blocks(TwoIssues(first, second), blocker, id)
                                  <==> blocker == first && id == second
  {
    var issues := TwoIssues(first, second);
    assert issues[0].draftKey == first && issues[1].draftKey == second;
    assert forall blocker, id :: Planning.Blocks(issues, blocker, id) <==> blocker == first && id == second;
    forall path ensures !Planning.IsCycle(issues, path) {
      if |path| >= 2 && Planning.Blocks(issues, path[0], path[1]) && path[0] == path[|path| - 1] {
        assert path[0 + 1] == second && path[|path| - 1] == first;
        assert !Planning.Blocks(issues, path[|path| - 2], path[|path| - 2 + 1]);
      }
    }
  }

  function TwoTasks(first: TaskId, second: TaskId): Db {
    Db(map[first := NewTask(0, {}, {}), second := NewTask(0, {}, {first})], [], 0)
  }

  lemma FirstCancelled(config: Config, first: TaskId, second: TaskId)
    requires first != second
    ensures var db := PerformAll(config, TwoTasks(first, second), [Cancel(first)]);
      && db.tasks.Keys == {first, second} && db.tasks[first].state == Cancelled
      && db.tasks[second] == NewTask(0, {}, {first})
  {
    var start := TwoTasks(first, second);
    RunNext(config, start, [], Cancel(first));
    assert [] + [Cancel(first)] == [Cancel(first)];
    assert start.tasks[first].lease.None? && CanTransition(Queued, Cancelled);
  }

  lemma TwoTasksMirror(first: TaskId, second: TaskId)
    requires first != second
    ensures Initial(TwoTasks(first, second)) && Mirrors(TwoTasks(first, second), TwoIssues(first, second))
  {
    var issues := TwoIssues(first, second);
    TwoIssuesAcyclic(first, second);
    assert issues[0].draftKey == first && issues[1].draftKey == second;
    assert Planning.KeysOf(issues) == {first, second};
  }

  /**
   Acyclic issues are not enough: after one cancellation the other task is open, and no open task has its blockers
   completed.
   */
  lemma CancelledBlockerStarves(config: Config, first: TaskId, second: TaskId)
    requires first != second
    ensures var start, issues := TwoTasks(first, second), TwoIssues(first, second);
      var db := PerformAll(config, start, [Cancel(first)]);
      && Initial(start) && Mirrors(start, issues) && !Planning.HasCycle(issues)
      && Open(db, second) && Starved(db, issues, second) && !SomeFree(db)
  {
    hide PerformAll, TwoIssues, TwoTasks, Initial, Mirrors;
    var issues := TwoIssues(first, second);
    TwoIssuesAcyclic(first, second);
    TwoTasksMirror(first, second);
    FirstCancelled(config, first, second);
    var db := PerformAll(config, TwoTasks(first, second), [Cancel(first)]);
    var path := [first, second];
    assert Planning.Blocks(issues, path[0], path[1]);
    assert FromCancelled(db, issues, path, second);
    assert first in db.tasks[second].blockers;
  }
}
