/** The dependency check of a planning backlog: graph construction and Kahn's algorithm. */
module Planning {
  import opened Wrappers

  type Key = string

  datatype Issue = Issue(draftKey: Key, blockedBy: seq<Key>)

  datatype Problem =
    | DuplicateIssueKey(issue: nat)
    | DuplicateDependency(issue: nat, blocker: nat)
    | SelfDependency(issue: nat, blocker: nat)
    | UnknownDependency(issue: nat, blocker: nat)
    | DependencyCycle

  function KeysOf(issues: seq<Issue>): set<Key> {
    set i | 0 <= i < |issues| :: issues[i].draftKey
  }

  predicate UniqueKeys(issues: seq<Issue>) {
    forall i, j :: 0 <= i < j < |issues| ==> issues[i].draftKey != issues[j].draftKey
  }

  predicate UniqueBlockers(issue: Issue) {
    forall i, j :: 0 <= i < j < |issue.blockedBy| ==> issue.blockedBy[i] != issue.blockedBy[j]
  }

  /** A blocker that is another, known issue. */
  predicate ValidBlocker(issues: seq<Issue>, i: nat, j: nat)
    requires i < |issues| && j < |issues[i].blockedBy|
  {
    issues[i].blockedBy[j] != issues[i].draftKey && issues[i].blockedBy[j] in KeysOf(issues)
  }

  /** Every blocker is another, known issue, and none is listed twice. */
  predicate WellFormed(issues: seq<Issue>) {
    && UniqueKeys(issues)
    && forall i :: 0 <= i < |issues| ==>
         && UniqueBlockers(issues[i])
         && forall j :: 0 <= j < |issues[i].blockedBy| ==> ValidBlocker(issues, i, j)
  }

  /** `blocker` must be finished before `key`; self-blocks and unknown keys are reported apart and make no edge. */
  ghost predicate Blocks(issues: seq<Issue>, blocker: Key, key: Key) {
    && blocker != key && blocker in KeysOf(issues)
    && exists i :: 0 <= i < |issues| && issues[i].draftKey == key && blocker in issues[i].blockedBy
  }

  ghost predicate IsCycle(issues: seq<Issue>, path: seq<Key>) {
    && |path| >= 2 && path[0] == path[|path| - 1]
    && forall i :: 0 <= i < |path| - 1 ==> Blocks(issues, path[i], path[i + 1])
  }

  ghost predicate HasCycle(issues: seq<Issue>) {
    exists path :: IsCycle(issues, path)
  }

  // ------------------------------------------------------------------ the graph as a list of edges

  datatype Edge = Edge(blocker: Key, key: Key)

  /** The targets of `blocker`, in the order in which the edges were added. */
  function Targets(edges: seq<Edge>, blocker: Key): seq<Key> {
    if |edges| == 0 then []
    else
      var last := edges[|edges| - 1];
      Targets(edges[..|edges| - 1], blocker) + if last.blocker == blocker then [last.key] else []
  }

  /** Edges into `key` from blockers outside `done`. */
  function Pending(edges: seq<Edge>, done: set<Key>, key: Key): nat {
    if |edges| == 0 then 0
    else
      var last := edges[|edges| - 1];
      Pending(edges[..|edges| - 1], done, key) + if last.key == key && last.blocker !in done then 1 else 0
  }

  function Occurrences(keys: seq<Key>, key: Key): nat {
    if |keys| == 0 then 0
    else Occurrences(keys[..|keys| - 1], key) + if keys[|keys| - 1] == key then 1 else 0
  }

  lemma {:induction false} OccurrencesAppend(keys: seq<Key>, last: Key, key: Key)
    ensures Occurrences(keys + [last], key) == Occurrences(keys, key) + if last == key then 1 else 0
  {
    assert (keys + [last])[..|keys|] == keys;
  }

  lemma {:induction false} OccurrencesPrefix(keys: seq<Key>, n: nat, key: Key)
    requires n <= |keys|
    ensures Occurrences(keys[..n], key) <= Occurrences(keys, key)
  {
    if n < |keys| {
      OccurrencesPrefix(keys[..|keys| - 1], n, key);
      assert keys[..|keys| - 1][..n] == keys[..n];
    } else {
      assert keys[..n] == keys;
    }
  }

  /** Finishing one more blocker removes exactly its own edges. */
  lemma {:induction false} FinishBlocker(edges: seq<Edge>, done: set<Key>, blocker: Key, key: Key)
    requires blocker !in done
    ensures Pending(edges, done, key)
            == Pending(edges, done + {blocker}, key) + Occurrences(Targets(edges, blocker), key)
  {
    if |edges| > 0 {
      FinishBlocker(edges[..|edges| - 1], done, blocker, key);
      var last := edges[|edges| - 1];
      if last.blocker == blocker {
        OccurrencesAppend(Targets(edges[..|edges| - 1], blocker), last.key, key);
      } else {
        assert Targets(edges, blocker) == Targets(edges[..|edges| - 1], blocker);
      }
    }
  }

  lemma {:induction false} PendingNone(edges: seq<Edge>, done: set<Key>, key: Key)
    ensures Pending(edges, done, key) == 0
            <==> forall i :: 0 <= i < |edges| && edges[i].key == key ==> edges[i].blocker in done
  {
    if |edges| > 0 {
      var shorter := edges[..|edges| - 1];
      PendingNone(shorter, done, key);
      assert forall i :: 0 <= i < |shorter| ==> shorter[i] == edges[i];
    }
  }

  lemma {:induction false} TargetsIn(edges: seq<Edge>, blocker: Key, keys: set<Key>)
    requires forall i :: 0 <= i < |edges| ==> edges[i].key in keys
    ensures forall i :: 0 <= i < |Targets(edges, blocker)| ==> Targets(edges, blocker)[i] in keys
  {
    if |edges| > 0 {
      TargetsIn(edges[..|edges| - 1], blocker, keys);
    }
  }

  lemma PendingAppend(edges: seq<Edge>, edge: Edge, done: set<Key>, key: Key)
    ensures Pending(edges + [edge], done, key)
         == Pending(edges, done, key) + if edge.key == key && edge.blocker !in done then 1 else 0
  {
    assert (edges + [edge])[..|edges|] == edges;
  }

  lemma TargetsAppend(edges: seq<Edge>, edge: Edge, blocker: Key)
    ensures Targets(edges + [edge], blocker)
         == Targets(edges, blocker) + if edge.blocker == blocker then [edge.key] else []
  {
    assert (edges + [edge])[..|edges|] == edges;
  }

  // ------------------------------------------------------------------ cycles

  predicate Distinct(keys: seq<Key>) {
    forall i, j :: 0 <= i < j < |keys| ==> keys[i] != keys[j]
  }

  function Elements(keys: seq<Key>): set<Key> {
    set i | 0 <= i < |keys| :: keys[i]
  }

  lemma {:induction false} DistinctSize(keys: seq<Key>)
    requires Distinct(keys)
    ensures |Elements(keys)| == |keys|
  {
    if |keys| > 0 {
      var shorter := keys[..|keys| - 1];
      DistinctSize(shorter);
      assert forall i :: 0 <= i < |shorter| ==> shorter[i] == keys[i];
      assert Elements(keys) == Elements(shorter) + {keys[|keys| - 1]};
      assert keys[|keys| - 1] !in Elements(shorter);
    }
  }

  ghost predicate BlockedWithin(issues: seq<Issue>, keys: set<Key>, key: Key) {
    exists blocker :: blocker in keys && Blocks(issues, blocker, key)
  }

  ghost predicate AllBlocked(issues: seq<Issue>, keys: set<Key>) {
    forall key {:trigger BlockedWithin(issues, keys, key)} :: key in keys ==> BlockedWithin(issues, keys, key)
  }

  /** A path inside `keys` that never repeats a key. */
  ghost predicate SimplePath(issues: seq<Issue>, keys: set<Key>, path: seq<Key>) {
    && |path| > 0 && Distinct(path) && Elements(path) <= keys
    && forall i :: 0 <= i < |path| - 1 ==> Blocks(issues, path[i], path[i + 1])
  }

  lemma PathClosesCycle(issues: seq<Issue>, keys: set<Key>, path: seq<Key>, blocker: Key, j: nat)
    requires SimplePath(issues, keys, path) && Blocks(issues, blocker, path[0])
    requires j < |path| && path[j] == blocker
    ensures HasCycle(issues)
  {
    var cycle := [blocker] + path[..j + 1];
    assert cycle[|cycle| - 1] == path[j];
    forall i | 0 <= i < |cycle| - 1 ensures Blocks(issues, cycle[i], cycle[i + 1]) {
      assert cycle[i + 1] == path[i];
    }
    assert IsCycle(issues, cycle);
  }

  lemma PathExtends(issues: seq<Issue>, keys: set<Key>, path: seq<Key>, blocker: Key)
    requires SimplePath(issues, keys, path) && Blocks(issues, blocker, path[0])
    requires blocker in keys && blocker !in path
    ensures SimplePath(issues, keys, [blocker] + path) && |path| + 1 <= |keys|
  {
    var longer := [blocker] + path;
    forall i | 0 <= i < |longer| - 1 ensures Blocks(issues, longer[i], longer[i + 1]) {
      assert longer[i + 1] == path[i];
    }
    forall key | key in Elements(longer) ensures key in keys {
      assert key == blocker || key in Elements(path);
    }
    DistinctSize(longer);
    SubsetSize(Elements(longer), keys);
  }

  /** Walking back along blockers inside a set that always has one must revisit a key. */
  lemma {:induction false} WalkBack(issues: seq<Issue>, keys: set<Key>, path: seq<Key>)
    requires AllBlocked(issues, keys)
    requires SimplePath(issues, keys, path)
    ensures HasCycle(issues)
    decreases |keys| - |path|
  {
    assert path[0] in Elements(path);
    assert BlockedWithin(issues, keys, path[0]);
    var blocker :| blocker in keys && Blocks(issues, blocker, path[0]);
    if blocker in path {
      var j :| 0 <= j < |path| && path[j] == blocker;
      PathClosesCycle(issues, keys, path, blocker, j);
    } else {
      PathExtends(issues, keys, path, blocker);
      WalkBack(issues, keys, [blocker] + path);
    }
  }

  /** In an acyclic backlog, every nonempty set of issues contains one that none of the others blocks. */
  lemma SomeIssueIsFree(issues: seq<Issue>, open: set<Key>)
    requires !HasCycle(issues) && open != {}
    ensures exists key :: key in open && !BlockedWithin(issues, open, key)
  {
    if AllBlocked(issues, open) {
      var start :| start in open;
      WalkBack(issues, open, [start]);
    }
  }

  /** Every blocker of a key stands before it. */
  ghost predicate InOrder(issues: seq<Issue>, order: seq<Key>) {
    forall k, blocker :: 0 <= k < |order| && Blocks(issues, blocker, order[k])
      ==> exists j :: 0 <= j < k && order[j] == blocker
  }

  lemma {:induction false} PathClimbs(issues: seq<Issue>, order: seq<Key>, path: seq<Key>, at: nat) returns (from: nat)
    requires InOrder(issues, order) && Distinct(order) && |path| >= 1
    requires forall i :: 0 <= i < |path| - 1 ==> Blocks(issues, path[i], path[i + 1])
    requires at < |order| && order[at] == path[|path| - 1]
    ensures from <= at && order[from] == path[0]
    ensures |path| >= 2 ==> from < at
  {
    if |path| == 1 {
      from := at;
    } else {
      var shorter := path[..|path| - 1];
      assert Blocks(issues, path[|path| - 2], path[|path| - 1]);
      var j :| 0 <= j < at && order[j] == path[|path| - 2];
      from := PathClimbs(issues, order, shorter, j);
    }
  }

  lemma OrderedIsAcyclic(issues: seq<Issue>, order: seq<Key>)
    requires InOrder(issues, order) && Distinct(order) && KeysOf(issues) <= Elements(order)
    ensures !HasCycle(issues)
  {
    if HasCycle(issues) {
      var path :| IsCycle(issues, path);
      assert Blocks(issues, path[|path| - 2], path[|path| - 1]);
      assert path[|path| - 1] in KeysOf(issues);
      var at :| 0 <= at < |order| && order[at] == path[|path| - 1];
      var from := PathClimbs(issues, order, path, at);
    }
  }

  // ------------------------------------------------------------------ the program

  function TargetsOf(dependents: map<Key, seq<Key>>, key: Key): seq<Key> {
    if key in dependents then dependents[key] else []
  }

  /** Every edge was read from an issue, and every valid blocker read so far has its edge. */
  ghost predicate EdgesOf(issues: seq<Issue>, edges: seq<Edge>, n: nat, m: nat)
    requires n <= |issues|
  {
    && (forall e :: 0 <= e < |edges| ==> Blocks(issues, edges[e].blocker, edges[e].key))
    && (forall i, j :: 0 <= i < |issues| && 0 <= j < |issues[i].blockedBy| && (i < n || (i == n && j < m))
                       && ValidBlocker(issues, i, j)
          ==> Edge(issues[i].blockedBy[j], issues[i].draftKey) in edges)
  }

  ghost predicate Counted(edges: seq<Edge>, inDegree: map<Key, int>) {
    forall key :: key in inDegree ==> inDegree[key] == Pending(edges, {}, key)
  }

  ghost predicate Listed(dependents: map<Key, seq<Key>>, edges: seq<Edge>) {
    forall key: Key :: TargetsOf(dependents, key) == Targets(edges, key)
  }

  lemma NewEdge(issues: seq<Issue>, edges: seq<Edge>, n: nat, m: nat, edge: Edge)
    requires n < |issues| && m < |issues[n].blockedBy| && ValidBlocker(issues, n, m)
    requires EdgesOf(issues, edges, n, m) && edge == Edge(issues[n].blockedBy[m], issues[n].draftKey)
    ensures EdgesOf(issues, edges + [edge], n, m + 1)
  {
    assert Blocks(issues, edge.blocker, edge.key);
    forall i, j | 0 <= i < |issues| && 0 <= j < |issues[i].blockedBy| && (i < n || (i == n && j < m + 1))
                  && ValidBlocker(issues, i, j)
      ensures Edge(issues[i].blockedBy[j], issues[i].draftKey) in edges + [edge]
    {
      if i == n && j == m {
        assert (edges + [edge])[|edges|] == edge;
      } else {
        assert Edge(issues[i].blockedBy[j], issues[i].draftKey) in edges;
      }
    }
  }

  lemma CountEdge(edges: seq<Edge>, inDegree: map<Key, int>, edge: Edge)
    requires Counted(edges, inDegree) && edge.key in inDegree
    ensures Counted(edges + [edge], inDegree[edge.key := inDegree[edge.key] + 1])
  {
    forall key | key in inDegree
      ensures inDegree[edge.key := inDegree[edge.key] + 1][key] == Pending(edges + [edge], {}, key)
    {
      PendingAppend(edges, edge, {}, key);
    }
  }

  lemma ListEdge(dependents: map<Key, seq<Key>>, edges: seq<Edge>, edge: Edge)
    requires Listed(dependents, edges)
    ensures Listed(dependents[edge.blocker := TargetsOf(dependents, edge.blocker) + [edge.key]], edges + [edge])
  {
    var longer := dependents[edge.blocker := TargetsOf(dependents, edge.blocker) + [edge.key]];
    forall key: Key ensures TargetsOf(longer, key) == Targets(edges + [edge], key) {
      TargetsAppend(edges, edge, key);
    }
  }

  lemma FreshKeyHasNoEdges(edges: seq<Edge>, key: Key)
    requires forall e :: 0 <= e < |edges| ==> edges[e].key != key
    ensures Pending(edges, {}, key) == 0
  {
    PendingNone(edges, {}, key);
  }

  /** Keys in the order in which the program's maps hold them, degrees, and the dependents of each blocker. */
  datatype Graph = Graph(keys: seq<Key>, inDegree: map<Key, int>, dependents: map<Key, seq<Key>>)

  /** The graph of the issues before `n` and the first `m` blockers of issue `n`, whose keys are `keys`. */
  ghost predicate Reading(issues: seq<Issue>, graph: Graph, edges: seq<Edge>, n: nat, m: nat, keys: set<Key>)
    requires n <= |issues|
  {
    && Distinct(graph.keys) && Elements(graph.keys) == keys && graph.inDegree.Keys == keys
    && (forall key :: key in graph.inDegree ==> graph.inDegree[key] >= 0)
    && (forall e :: 0 <= e < |edges| ==> edges[e].key in keys)
    && Listed(graph.dependents, edges)
    && EdgesOf(issues, edges, n, m)
    && (UniqueKeys(issues) ==> Counted(edges, graph.inDegree))
  }

  function EnterKey(graph: Graph, key: Key): Graph {
    graph.(keys := if key in graph.inDegree then graph.keys else graph.keys + [key],
           inDegree := graph.inDegree[key := 0])
  }

  function EnterEdge(graph: Graph, edge: Edge): Graph
    requires edge.key in graph.inDegree
  {
    graph.(inDegree := graph.inDegree[edge.key := graph.inDegree[edge.key] + 1],
           dependents := graph.dependents[edge.blocker := TargetsOf(graph.dependents, edge.blocker) + [edge.key]])
  }

  lemma KeysGrow(issues: seq<Issue>, n: nat)
    requires n < |issues|
    ensures KeysOf(issues[..n + 1]) == KeysOf(issues[..n]) + {issues[n].draftKey}
    ensures UniqueKeys(issues) ==> issues[n].draftKey !in KeysOf(issues[..n])
  {
    assert forall i :: 0 <= i < n ==> issues[..n + 1][i] == issues[..n][i] == issues[i];
    assert issues[..n + 1][n] == issues[n];
  }

  lemma ElementsGrow(keys: seq<Key>, key: Key)
    requires Distinct(keys) && key !in Elements(keys)
    ensures Distinct(keys + [key]) && Elements(keys + [key]) == Elements(keys) + {key}
  {
    var longer := keys + [key];
    assert forall i :: 0 <= i < |keys| ==> longer[i] == keys[i];
    assert longer[|keys|] == key;
  }

  lemma EnterKeyReads(issues: seq<Issue>, graph: Graph, edges: seq<Edge>, n: nat)
    requires n < |issues| && Reading(issues, graph, edges, n, 0, KeysOf(issues[..n]))
    ensures Reading(issues, EnterKey(graph, issues[n].draftKey), edges, n, 0, KeysOf(issues[..n + 1]))
  {
    var key := issues[n].draftKey;
    KeysGrow(issues, n);
    if key !in graph.inDegree {
      ElementsGrow(graph.keys, key);
    }
    if UniqueKeys(issues) {
      FreshKeyHasNoEdges(edges, key);
    }
  }

  lemma EnterEdgeReads(issues: seq<Issue>, graph: Graph, edges: seq<Edge>, n: nat, m: nat, keys: set<Key>)
    requires n < |issues| && m < |issues[n].blockedBy| && ValidBlocker(issues, n, m) && issues[n].draftKey in keys
    requires Reading(issues, graph, edges, n, m, keys)
    ensures issues[n].draftKey in graph.inDegree
    ensures var edge := Edge(issues[n].blockedBy[m], issues[n].draftKey);
      Reading(issues, EnterEdge(graph, edge), edges + [edge], n, m + 1, keys)
  {
    var edge := Edge(issues[n].blockedBy[m], issues[n].draftKey);
    NewEdge(issues, edges, n, m, edge);
    ListEdge(graph.dependents, edges, edge);
    if UniqueKeys(issues) {
      CountEdge(edges, graph.inDegree, edge);
    }
  }

  lemma SkipBlockerReads(issues: seq<Issue>, graph: Graph, edges: seq<Edge>, n: nat, m: nat, keys: set<Key>)
    requires n < |issues| && m < |issues[n].blockedBy| && !ValidBlocker(issues, n, m)
    requires Reading(issues, graph, edges, n, m, keys)
    ensures Reading(issues, graph, edges, n, m + 1, keys)
  {
  }

  lemma IssueDone(issues: seq<Issue>, graph: Graph, edges: seq<Edge>, n: nat, keys: set<Key>)
    requires n < |issues| && Reading(issues, graph, edges, n, |issues[n].blockedBy|, keys)
    ensures Reading(issues, graph, edges, n + 1, 0, keys)
  {
  }

  predicate BlockerFine(issues: seq<Issue>, i: nat, j: nat)
    requires i < |issues| && j < |issues[i].blockedBy|
  {
    ValidBlocker(issues, i, j) && issues[i].blockedBy[j] !in issues[i].blockedBy[..j]
  }

  predicate FineUpTo(issues: seq<Issue>, i: nat, m: nat)
    requires i < |issues| && m <= |issues[i].blockedBy|
  {
    forall j :: 0 <= j < m ==> BlockerFine(issues, i, j)
  }

  /** What is reported about one blocker entry: first a duplicate, then a self-block or an unknown key. */
  function BlockerProblems(issues: seq<Issue>, i: nat, j: nat, seen: bool): seq<Problem>
    requires i < |issues| && j < |issues[i].blockedBy|
  {
    (if seen then [DuplicateDependency(i, j)] else [])
    + if issues[i].blockedBy[j] == issues[i].draftKey then [SelfDependency(i, j)]
      else if issues[i].blockedBy[j] !in KeysOf(issues) then [UnknownDependency(i, j)]
      else []
  }

  lemma FineNext(issues: seq<Issue>, i: nat, j: nat, seen: bool)
    requires i < |issues| && j < |issues[i].blockedBy| && (seen <==> issues[i].blockedBy[j] in issues[i].blockedBy[..j])
    ensures FineUpTo(issues, i, j + 1) <==> FineUpTo(issues, i, j) && BlockerProblems(issues, i, j, seen) == []
    ensures DependencyCycle !in BlockerProblems(issues, i, j, seen)
  {
    assert BlockerFine(issues, i, j) <==> BlockerProblems(issues, i, j, seen) == [];
  }

  /** Reads the blockers of one issue into the graph. */
  method AddIssue(issues: seq<Issue>, index: nat, graph: Graph, ghost edges: seq<Edge>)
    returns (problems: seq<Problem>, grown: Graph, ghost more: seq<Edge>)
    requires index < |issues|
    requires Reading(issues, graph, edges, index, 0, KeysOf(issues[..index]))
    ensures Reading(issues, grown, more, index + 1, 0, KeysOf(issues[..index + 1]))
    ensures DependencyCycle !in problems
    ensures problems == [] <==> FineUpTo(issues, index, |issues[index].blockedBy|)
  {
    hide Reading;
    var issue := issues[index];
    problems := [];
    more := edges;
    EnterKeyReads(issues, graph, edges, index);
    KeysGrow(issues, index);
    grown := EnterKey(graph, issue.draftKey);
    var seen: set<Key> := {};
    for j := 0 to |issue.blockedBy|
      invariant forall key :: key in seen <==> key in issue.blockedBy[..j]
      invariant Reading(issues, grown, more, index, j, KeysOf(issues[..index + 1]))
      invariant DependencyCycle !in problems
      invariant problems == [] <==> FineUpTo(issues, index, j)
    {
      var blocker := issue.blockedBy[j];
      FineNext(issues, index, j, blocker in seen);
      problems := problems + BlockerProblems(issues, index, j, blocker in seen);
      if ValidBlocker(issues, index, j) {
        EnterEdgeReads(issues, grown, more, index, j, KeysOf(issues[..index + 1]));
        grown := EnterEdge(grown, Edge(blocker, issue.draftKey));
        more := more + [Edge(blocker, issue.draftKey)];
      } else {
        SkipBlockerReads(issues, grown, more, index, j, KeysOf(issues[..index + 1]));
      }
      seen := seen + {blocker};
      assert issue.blockedBy[..j + 1] == issue.blockedBy[..j] + [blocker];
    }
    IssueDone(issues, grown, more, index, KeysOf(issues[..index + 1]));
  }

  /** Kahn's order so far: each key appears after every blocker that has an edge to it. */
  ghost predicate EdgesInOrder(edges: seq<Edge>, order: seq<Key>) {
    forall k, e :: 0 <= k < |order| && 0 <= e < |edges| && edges[e].key == order[k] ==> edges[e].blocker in order[..k]
  }

  /**
   The state of the loop: the first `visited` keys of `order` are finished and the rest are queued; a key is in `order`
   exactly when its degree has dropped to zero.
   */
  ghost predicate Sorting(inDegree: map<Key, int>, order: seq<Key>) {
    && Distinct(order)
    && forall key: Key :: key in order <==> key in inDegree && inDegree[key] <= 0
  }

  /** Degrees are exact: the edges from unfinished blockers, less the first `j` targets of the blocker in hand. */
  ghost predicate Exact(edges: seq<Edge>, inDegree: map<Key, int>, done: set<Key>, handled: seq<Key>) {
    forall key :: key in inDegree ==> inDegree[key] == Pending(edges, done, key) - Occurrences(handled, key)
  }

  /** When the degree of `key` has dropped to zero, all its blockers are finished or the one in hand. */
  lemma ReadyKey(edges: seq<Edge>, done: set<Key>, blocker: Key, n: nat, key: Key)
    requires blocker !in done && n <= |Targets(edges, blocker)|
    requires Pending(edges, done, key) - Occurrences(Targets(edges, blocker)[..n], key) <= 0
    ensures forall e :: 0 <= e < |edges| && edges[e].key == key ==> edges[e].blocker in done + {blocker}
  {
    FinishBlocker(edges, done, blocker, key);
    OccurrencesPrefix(Targets(edges, blocker), n, key);
    PendingNone(edges, done + {blocker}, key);
  }

  lemma BlockerDone(edges: seq<Edge>, inDegree: map<Key, int>, done: set<Key>, blocker: Key)
    requires blocker !in done && Exact(edges, inDegree, done, Targets(edges, blocker))
    ensures Exact(edges, inDegree, done + {blocker}, [])
  {
    forall key | key in inDegree ensures inDegree[key] == Pending(edges, done + {blocker}, key) - Occurrences([], key) {
      FinishBlocker(edges, done, blocker, key);
    }
  }

  lemma DegreeIs(edges: seq<Edge>, inDegree: map<Key, int>, done: set<Key>, handled: seq<Key>, key: Key)
    requires Exact(edges, inDegree, done, handled) && key in inDegree
    ensures inDegree[key] == Pending(edges, done, key) - Occurrences(handled, key)
  {
  }

  lemma ExactStep(edges: seq<Edge>, inDegree: map<Key, int>, done: set<Key>, handled: seq<Key>, target: Key)
    requires Exact(edges, inDegree, done, handled) && target in inDegree
    ensures Exact(edges, inDegree[target := inDegree[target] - 1], done, handled + [target])
  {
    forall key | key in inDegree
      ensures inDegree[target := inDegree[target] - 1][key]
              == Pending(edges, done, key) - Occurrences(handled + [target], key)
    {
      OccurrencesAppend(handled, target, key);
    }
  }

  lemma OrderGrows(edges: seq<Edge>, order: seq<Key>, key: Key)
    requires EdgesInOrder(edges, order)
    requires forall e :: 0 <= e < |edges| && edges[e].key == key ==> edges[e].blocker in order
    ensures EdgesInOrder(edges, order + [key])
  {
    var longer := order + [key];
    forall k, e | 0 <= k < |longer| && 0 <= e < |edges| && edges[e].key == longer[k]
      ensures edges[e].blocker in longer[..k]
    {
      if k < |order| {
        assert longer[..k] == order[..k];
      } else {
        assert longer[..k] == order;
      }
    }
  }

  /** Lowers the degrees of the dependents of `key`, just taken from the queue, and queues those that reach zero. */
  method Finish(key: Key, degrees: map<Key, int>, dependents: map<Key, seq<Key>>, waiting: seq<Key>,
                ghost queued: seq<Key>, ghost visited: nat, ghost edges: seq<Edge>, ghost exact: bool)
    returns (inDegree: map<Key, int>, queue: seq<Key>, ghost order: seq<Key>)
    requires visited < |queued| && queued[visited] == key && queued[visited + 1..] == waiting
    requires Sorting(degrees, queued) && Listed(dependents, edges)
    requires forall e :: 0 <= e < |edges| ==> edges[e].key in degrees
    requires exact ==> Exact(edges, degrees, Elements(queued[..visited]), []) && EdgesInOrder(edges, queued)
    ensures queued <= order && order[visited + 1..] == queue && inDegree.Keys == degrees.Keys
    ensures Sorting(inDegree, order)
    ensures exact ==> Exact(edges, inDegree, Elements(order[..visited + 1]), []) && EdgesInOrder(edges, order)
  {
    hide Exact, EdgesInOrder;
    var targets := TargetsOf(dependents, key);
    ghost var done := Elements(queued[..visited]);
    inDegree, queue, order := degrees, waiting, queued;
    TargetsIn(edges, key, degrees.Keys);
    assert key !in done;
    assert targets[..0] == [];
    for j := 0 to |targets|
      invariant queued <= order && order == queued[..visited + 1] + queue
      invariant inDegree.Keys == degrees.Keys && Sorting(inDegree, order)
      invariant exact ==> Exact(edges, inDegree, done, targets[..j]) && EdgesInOrder(edges, order)
    {
      var target := targets[j];
      if exact {
        ExactStep(edges, inDegree, done, targets[..j], target);
      }
      assert targets[..j + 1] == targets[..j] + [target];
      var nextDegree := inDegree[target] - 1;
      inDegree := inDegree[target := nextDegree];
      if nextDegree == 0 {
        if exact {
          DegreeIs(edges, inDegree, done, targets[..j + 1], target);
          ReadyKey(edges, done, key, j + 1, target);
          assert forall blocker :: blocker in done + {key} ==> blocker in order;
          OrderGrows(edges, order, target);
        }
        queue := queue + [target];
        order := order + [target];
      }
    }
    assert targets[..|targets|] == targets;
    assert Elements(order[..visited + 1]) == done + {key} by {
      assert order[..visited + 1] == queued[..visited] + [key];
    }
    if exact {
      BlockerDone(edges, inDegree, done, key);
    }
  }

  predicate DependenciesFine(issues: seq<Issue>, n: nat)
    requires n <= |issues|
  {
    forall i :: 0 <= i < n ==> FineUpTo(issues, i, |issues[i].blockedBy|)
  }

  lemma UniqueNext(issues: seq<Issue>)
    requires |issues| > 0
    ensures var last := |issues| - 1;
      UniqueKeys(issues) <==> UniqueKeys(issues[..last]) && issues[last].draftKey !in KeysOf(issues[..last])
  {
    var last := |issues| - 1;
    assert forall i :: 0 <= i < last ==> issues[..last][i] == issues[i];
  }

  /** A list of distinct keys that covers all issues is as long as the list of issues exactly when no key repeats. */
  lemma {:induction false} KeyCount(issues: seq<Issue>)
    ensures |KeysOf(issues)| <= |issues|
    ensures |KeysOf(issues)| == |issues| <==> UniqueKeys(issues)
  {
    if |issues| > 0 {
      var last := |issues| - 1;
      KeyCount(issues[..last]);
      KeysGrow(issues, last);
      assert issues[..last + 1] == issues;
      UniqueNext(issues);
    }
  }

  /** What the finished order says about the graph. */
  lemma SortedOrCyclic(issues: seq<Issue>, edges: seq<Edge>, inDegree: map<Key, int>, order: seq<Key>)
    requires UniqueKeys(issues) && EdgesOf(issues, edges, |issues|, 0) && inDegree.Keys == KeysOf(issues)
    requires Sorting(inDegree, order) && Exact(edges, inDegree, Elements(order), []) && EdgesInOrder(edges, order)
    ensures Elements(order) <= KeysOf(issues)
    ensures HasCycle(issues) <==> Elements(order) != KeysOf(issues)
  {
    assert forall key :: key in Elements(order) ==> key in order;
    if Elements(order) == KeysOf(issues) {
      forall k, blocker | 0 <= k < |order| && Blocks(issues, blocker, order[k])
        ensures exists j :: 0 <= j < k && order[j] == blocker
      {
        BlockHasEdge(issues, edges, blocker, order[k]);
        assert blocker in order[..k];
      }
      OrderedIsAcyclic(issues, order);
    } else {
      var stuck := KeysOf(issues) - Elements(order);
      forall key | key in stuck ensures BlockedWithin(issues, stuck, key) {
        StuckKey(issues, edges, inDegree, order, key);
      }
      assert Elements(order) <= KeysOf(issues);
      var start :| start in KeysOf(issues) && start !in Elements(order);
      WalkBack(issues, stuck, [start]);
    }
  }

  lemma BlockHasEdge(issues: seq<Issue>, edges: seq<Edge>, blocker: Key, key: Key)
    requires EdgesOf(issues, edges, |issues|, 0) && Blocks(issues, blocker, key)
    ensures exists e :: 0 <= e < |edges| && edges[e] == Edge(blocker, key)
  {
    var i :| 0 <= i < |issues| && issues[i].draftKey == key && blocker in issues[i].blockedBy;
    var j :| 0 <= j < |issues[i].blockedBy| && issues[i].blockedBy[j] == blocker;
    assert ValidBlocker(issues, i, j);
  }

  lemma StuckKey(issues: seq<Issue>, edges: seq<Edge>, inDegree: map<Key, int>, order: seq<Key>, key: Key)
    requires EdgesOf(issues, edges, |issues|, 0) && inDegree.Keys == KeysOf(issues)
    requires Sorting(inDegree, order) && Exact(edges, inDegree, Elements(order), [])
    requires key in KeysOf(issues) && key !in Elements(order)
    ensures BlockedWithin(issues, KeysOf(issues) - Elements(order), key)
  {
    assert key !in order;
    PendingNone(edges, Elements(order), key);
    var e :| 0 <= e < |edges| && edges[e].key == key && edges[e].blocker !in Elements(order);
    assert Blocks(issues, edges[e].blocker, key);
  }

  /** The keys without blockers, in the order of the degree map. */
  method InitialQueue(keys: seq<Key>, inDegree: map<Key, int>) returns (queue: seq<Key>)
    requires Distinct(keys) && Elements(keys) == inDegree.Keys
    requires forall key :: key in inDegree ==> inDegree[key] >= 0
    ensures Sorting(inDegree, queue)
    ensures forall key :: key in queue ==> key in inDegree && inDegree[key] == 0
  {
    queue := [];
    for i := 0 to |keys|
      invariant Distinct(queue)
      invariant forall key: Key :: key in queue <==> key in keys[..i] && inDegree[key] == 0
    {
      assert keys[i] !in keys[..i];
      assert keys[..i + 1] == keys[..i] + [keys[i]];
      if inDegree[keys[i]] == 0 {
        queue := queue + [keys[i]];
      }
    }
    assert keys[..|keys|] == keys;
    assert forall key: Key :: key in keys <==> key in Elements(keys);
  }

  lemma SortingSize(keys: set<Key>, inDegree: map<Key, int>, order: seq<Key>)
    requires inDegree.Keys == keys && Sorting(inDegree, order)
    ensures Elements(order) <= keys && |order| <= |keys|
  {
    DistinctSize(order);
    assert forall key :: key in Elements(order) ==> key in order;
    SubsetSize(Elements(order), keys);
  }

  /** Finishes queued keys until none is left. */
  method Drain(degrees: map<Key, int>, dependents: map<Key, seq<Key>>, initial: seq<Key>,
               ghost edges: seq<Edge>, ghost keys: set<Key>, ghost exact: bool)
    returns (visited: nat, ghost inDegree: map<Key, int>, ghost order: seq<Key>)
    requires degrees.Keys == keys && Sorting(degrees, initial) && Listed(dependents, edges)
    requires forall e :: 0 <= e < |edges| ==> edges[e].key in degrees
    requires exact ==> Exact(edges, degrees, {}, []) && EdgesInOrder(edges, initial)
    ensures visited == |order| && inDegree.Keys == keys && Sorting(inDegree, order)
    ensures exact ==> Exact(edges, inDegree, Elements(order), []) && EdgesInOrder(edges, order)
  {
    var current, queue := degrees, initial;
    visited := 0;
    order := queue;
    SortingSize(keys, current, order);
    assert Elements(order[..0]) == {};
    while |queue| > 0
      invariant visited <= |order| <= |keys| && queue == order[visited..]
      invariant current.Keys == keys && Sorting(current, order)
      invariant exact ==> Exact(edges, current, Elements(order[..visited]), []) && EdgesInOrder(edges, order)
      decreases |keys| - visited
    {
      var key := queue[0];
      current, queue, order := Finish(key, current, dependents, queue[1..], order, visited, edges, exact);
      visited := visited + 1;
      SortingSize(keys, current, order);
    }
    assert order[..visited] == order;
    inDegree := current;
  }

  /** Kahn's algorithm: the number of keys it finishes, in `order`. */
  method Sort(issues: seq<Issue>, graph: Graph, ghost edges: seq<Edge>) returns (visited: nat, ghost order: seq<Key>)
    requires Reading(issues, graph, edges, |issues|, 0, KeysOf(issues))
    ensures visited == |order| && Distinct(order) && Elements(order) <= KeysOf(issues)
    ensures UniqueKeys(issues) ==> (HasCycle(issues) <==> Elements(order) != KeysOf(issues))
  {
    var queue := InitialQueue(graph.keys, graph.inDegree);
    ghost var exact := UniqueKeys(issues);
    if exact {
      InitialOrder(edges, graph.inDegree, queue);
    }
    ghost var inDegree;
    visited, inDegree, order := Drain(graph.inDegree, graph.dependents, queue, edges, KeysOf(issues), exact);
    SortingSize(KeysOf(issues), inDegree, order);
    if exact {
      SortedOrCyclic(issues, edges, inDegree, order);
    }
  }

  lemma InitialOrder(edges: seq<Edge>, inDegree: map<Key, int>, order: seq<Key>)
    requires Counted(edges, inDegree) && forall key :: key in order ==> key in inDegree && inDegree[key] == 0
    ensures Exact(edges, inDegree, {}, []) && EdgesInOrder(edges, order)
  {
    forall k | 0 <= k < |order| ensures forall e :: 0 <= e < |edges| ==> edges[e].key != order[k] {
      assert order[k] in order;
      PendingNone(edges, {}, order[k]);
    }
  }

  /** The dependency part of the backlog refinement: the problems it reports, in order. */
  method CheckDependencies(issues: seq<Issue>) returns (problems: seq<Problem>)
    ensures DependencyCycle in problems <==> !UniqueKeys(issues) || HasCycle(issues)
    ensures problems == [] <==> WellFormed(issues) && !HasCycle(issues)
  {
    problems := DuplicateKeys(issues);
    var graph := Graph([], map[], map[]);
    ghost var edges: seq<Edge> := [];
    assert issues[..0] == [];
    for i := 0 to |issues|
      invariant Reading(issues, graph, edges, i, 0, KeysOf(issues[..i]))
      invariant DependencyCycle !in problems
      invariant problems == [] <==> UniqueKeys(issues) && DependenciesFine(issues, i)
    {
      var found;
      found, graph, edges := AddIssue(issues, i, graph, edges);
      problems := problems + found;
    }
    assert issues[..|issues|] == issues;
    var visited, order := Sort(issues, graph, edges);
    DistinctSize(order);
    KeyCount(issues);
    SubsetSize(Elements(order), KeysOf(issues));
    if Elements(order) != KeysOf(issues) {
      SmallerSubset(Elements(order), KeysOf(issues));
    }
    FineIsWellFormed(issues);
    if visited != |issues| {
      problems := problems + [DependencyCycle];
    }
  }

  method DuplicateKeys(issues: seq<Issue>) returns (problems: seq<Problem>)
    ensures DependencyCycle !in problems
    ensures problems == [] <==> UniqueKeys(issues)
  {
    problems := [];
    var seen: set<Key> := {};
    for i := 0 to |issues|
      invariant seen == KeysOf(issues[..i])
      invariant DependencyCycle !in problems
      invariant problems == [] <==> UniqueKeys(issues[..i])
    {
      KeysGrow(issues, i);
      assert forall k :: 0 <= k < i ==> issues[..i + 1][k] == issues[..i][k];
      assert issues[..i + 1][i] == issues[i];
      assert UniqueKeys(issues[..i + 1]) <==> UniqueKeys(issues[..i]) && issues[i].draftKey !in seen;
      if issues[i].draftKey in seen {
        problems := problems + [DuplicateIssueKey(i)];
      }
      seen := seen + {issues[i].draftKey};
    }
    assert issues[..|issues|] == issues;
  }

  lemma SmallerSubset<T>(a: set<T>, b: set<T>)
    requires a <= b && a != b
    ensures |a| < |b|
  {
    var extra :| extra in b && extra !in a;
    SubsetSize(a, b - {extra});
  }

  lemma FineIsWellFormed(issues: seq<Issue>)
    ensures WellFormed(issues) <==> UniqueKeys(issues) && DependenciesFine(issues, |issues|)
  {
    forall i | 0 <= i < |issues|
      ensures FineUpTo(issues, i, |issues[i].blockedBy|) <==>
        (UniqueBlockers(issues[i]) && forall j :: 0 <= j < |issues[i].blockedBy| ==> ValidBlocker(issues, i, j))
    {
      var blockedBy := issues[i].blockedBy;
      if FineUpTo(issues, i, |blockedBy|) {
        forall a, b | 0 <= a < b < |blockedBy| ensures blockedBy[a] != blockedBy[b] {
          assert BlockerFine(issues, i, b);
          assert blockedBy[..b][a] == blockedBy[a];
        }
        forall j | 0 <= j < |blockedBy| ensures ValidBlocker(issues, i, j) {
          assert BlockerFine(issues, i, j);
        }
      }
      if UniqueBlockers(issues[i]) && forall j :: 0 <= j < |blockedBy| ==> ValidBlocker(issues, i, j) {
        forall j | 0 <= j < |blockedBy| ensures BlockerFine(issues, i, j) {
          assert ValidBlocker(issues, i, j);
        }
      }
    }
  }
}
