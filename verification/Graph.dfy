/** The dependency graph and its breadth-first search. */
module Graph {
  import opened Text
  import opened Sorting

  datatype Edge = Edge(to: string, relation: string, key: string)

  type Forward = map<string, seq<Edge>>

  datatype GraphPath = GraphPath(resource: string, path: seq<string>, relations: seq<string>)

  function EdgesOf(g: Forward, node: string): seq<Edge>
  {
    if node in g then g[node] else []
  }

  predicate EdgeLess(a: Edge, b: Edge)
  {
    Less(a.to + a.relation, b.to + b.relation)
  }

  function SortedEdges(g: Forward, node: string): seq<Edge>
  {
    Sort(EdgeLess, EdgesOf(g, node))
  }

  // ---------------------------------------------------------------------------
  // What a path of the graph is.  Only the edges that leave the start resource
  // are filtered by key, and only when both sides name a key.

  predicate Blocked(start: string, key: string, node: string, e: Edge)
  {
    node == start && key != "" && e.key != "" && e.key != key
  }

  ghost predicate Step(g: Forward, start: string, key: string, from: string, relation: string, to: string)
  {
    exists e :: e in EdgesOf(g, from) && !Blocked(start, key, from, e) && e.relation == relation && e.to == to
  }

  ghost predicate IsPath(g: Forward, start: string, key: string, path: seq<string>, relations: seq<string>)
  {
    && |path| == |relations| + 1
    && path[0] == start
    && forall i {:trigger relations[i]} :: 0 <= i < |relations| ==> Step(g, start, key, path[i], relations[i], path[i + 1])
  }

  ghost predicate Reaches(g: Forward, start: string, key: string, to: string)
  {
    exists path, relations :: IsPath(g, start, key, path, relations) && path[|path| - 1] == to
  }

  // ---------------------------------------------------------------------------
  // Reference search: one list of discovered paths and a head index.  The queue
  // is the part of the list from the head on; a resource is visited exactly when
  // the list has a path to it.

  function Resources(all: seq<GraphPath>): set<string>
  {
    set p | p in all :: p.resource
  }

  function Nodes(g: Forward): set<string>
  {
    set u, e | u in g && e in g[u] :: e.to
  }

  function Extend(current: GraphPath, e: Edge): GraphPath
  {
    GraphPath(e.to, current.path + [e.to], current.relations + [e.relation])
  }

  function Visit(key: string, all: seq<GraphPath>, current: GraphPath, e: Edge): seq<GraphPath>
  {
    if |current.path| == 1 && key != "" && e.key != "" && e.key != key then all
    else if e.to in Resources(all) then all
    else all + [Extend(current, e)]
  }

  function Expand(key: string, all: seq<GraphPath>, current: GraphPath, edges: seq<Edge>): (r: seq<GraphPath>)
    ensures all <= r
    decreases |edges|
  {
    if edges == [] then all else Expand(key, Visit(key, all, current, edges[0]), current, edges[1..])
  }

  lemma {:induction false} ExpandAddsTargets(key: string, all: seq<GraphPath>, current: GraphPath, edges: seq<Edge>)
    ensures var r := Expand(key, all, current, edges);
            && Resources(all) <= Resources(r) <= Resources(all) + (set e | e in edges :: e.to)
            && (r == all || Resources(all) != Resources(r))
    decreases |edges|
  {
    if edges != [] {
      var all' := Visit(key, all, current, edges[0]);
      ExpandAddsTargets(key, all', current, edges[1..]);
      assert forall p :: p in all' ==> p in all || p == Extend(current, edges[0]);
      assert all' != all ==> all'[|all|] in all' && edges[0].to in Resources(all');
      assert edges[0] in edges;
    }
  }

  lemma TargetsAreNodes(g: Forward, node: string)
    ensures (set e | e in SortedEdges(g, node) :: e.to) <= Nodes(g)
  {
    SortPermutes(EdgeLess, EdgesOf(g, node));
  }

  lemma ExpandShrinks(g: Forward, key: string, all: seq<GraphPath>, head: nat)
    requires head < |all|
    ensures var r := Expand(key, all, all[head], SortedEdges(g, all[head].resource));
            r == all || Nodes(g) - Resources(r) < Nodes(g) - Resources(all)
  {
    var r := Expand(key, all, all[head], SortedEdges(g, all[head].resource));
    TargetsAreNodes(g, all[head].resource);
    ExpandAddsTargets(key, all, all[head], SortedEdges(g, all[head].resource));
    if r != all {
      var v :| v in Resources(r) && v !in Resources(all);
      assert v in Nodes(g);
    }
  }

  function Search(g: Forward, key: string, all: seq<GraphPath>, head: nat): seq<GraphPath>
    requires head <= |all|
    decreases Nodes(g) - Resources(all), |all| - head
  {
    if head == |all| then all
    else
      var next := Expand(key, all, all[head], SortedEdges(g, all[head].resource));
      ExpandShrinks(g, key, all, head);
      Search(g, key, next, head + 1)
  }

  function Root(start: string): GraphPath
  {
    GraphPath(start, [start], [])
  }

  /** What `descendants` returns. */
  function DescendantsOf(g: Forward, start: string, key: string): seq<GraphPath>
  {
    var all := Search(g, key, [Root(start)], 0);
    if |all| > 0 then all[1..] else []
  }

  // ---------------------------------------------------------------------------
  // Correctness of the search.

  ghost predicate IsPathTo(g: Forward, start: string, key: string, p: GraphPath)
  {
    IsPath(g, start, key, p.path, p.relations) && p.path[|p.path| - 1] == p.resource
  }

  ghost predicate RealPaths(g: Forward, start: string, key: string, all: seq<GraphPath>)
  {
    forall i :: 0 <= i < |all| ==> IsPathTo(g, start, key, all[i])
  }

  /** Each resource once, by non-decreasing depth; only the start has depth zero. */
  ghost predicate ByDepth(start: string, all: seq<GraphPath>)
  {
    && |all| >= 1 && all[0] == Root(start)
    && (forall i, j :: 0 <= i < j < |all| ==> all[i].resource != all[j].resource)
    && (forall i, j :: 0 <= i < j < |all| ==> |all[i].path| <= |all[j].path|)
    && (forall i :: 1 <= i < |all| ==> |all[i].path| >= 2)
  }

  ghost predicate Within(all: seq<GraphPath>, length: int)
  {
    forall i :: 0 <= i < |all| ==> |all[i].path| <= length
  }

  ghost predicate Sound(g: Forward, start: string, key: string, all: seq<GraphPath>)
  {
    ByDepth(start, all) && RealPaths(g, start, key, all)
  }

  ghost predicate Found(all: seq<GraphPath>, node: string, length: int)
  {
    exists i :: 0 <= i < |all| && all[i].resource == node && |all[i].path| <= length
  }

  ghost predicate Taken(start: string, key: string, all: seq<GraphPath>, p: GraphPath, e: Edge)
  {
    Blocked(start, key, p.resource, e) || Found(all, e.to, |p.path| + 1)
  }

  /** Every edge of p's resource has been followed, unless the key filter drops it. */
  ghost predicate Followed(g: Forward, start: string, key: string, all: seq<GraphPath>, p: GraphPath)
  {
    forall e :: e in EdgesOf(g, p.resource) ==> Taken(start, key, all, p, e)
  }

  ghost predicate Closed(g: Forward, start: string, key: string, all: seq<GraphPath>, head: nat)
  {
    forall i :: 0 <= i < head && i < |all| ==> Followed(g, start, key, all, all[i])
  }

  ghost predicate Searching(g: Forward, start: string, key: string, all: seq<GraphPath>, head: nat)
  {
    && Sound(g, start, key, all) && Closed(g, start, key, all, head) && head <= |all|
    && (head < |all| ==> Within(all, |all[head].path| + 1))
  }

  lemma FoundGrows(all: seq<GraphPath>, all': seq<GraphPath>, node: string, length: int)
    requires all <= all' && Found(all, node, length)
    ensures Found(all', node, length)
  {
  }

  lemma InResources(all: seq<GraphPath>, i: nat)
    requires i < |all|
    ensures all[i].resource in Resources(all)
  {
  }

  lemma VisitByDepth(start: string, key: string, all: seq<GraphPath>, head: nat, e: Edge)
    requires ByDepth(start, all) && head < |all|
    requires Within(all, |all[head].path| + 1)
    ensures var all' := Visit(key, all, all[head], e);
            && ByDepth(start, all')
            && Within(all', |all[head].path| + 1)
            && Taken(start, key, all', all[head], e)
  {
    var current := all[head];
    var all' := Visit(key, all, current, e);
    assert (|current.path| == 1) == (current.resource == start);
    if all' != all {
      forall i | 0 <= i < |all| ensures all[i].resource != e.to && |all[i].path| <= |current.path| + 1 {
        InResources(all, i);
      }
      assert all'[|all|] == Extend(current, e);
    } else if !Blocked(start, key, current.resource, e) {
      var p :| p in all && p.resource == e.to;
      var i :| 0 <= i < |all| && all[i] == p;
    }
  }

  lemma VisitRealPaths(g: Forward, start: string, key: string, all: seq<GraphPath>, head: nat, e: Edge)
    requires Sound(g, start, key, all) && head < |all|
    requires e in EdgesOf(g, all[head].resource)
    ensures RealPaths(g, start, key, Visit(key, all, all[head], e))
  {
  }

  lemma {:induction false} ExpandSound(g: Forward, start: string, key: string, all: seq<GraphPath>, head: nat,
                                       edges: seq<Edge>)
    requires Sound(g, start, key, all) && head < |all|
    requires Within(all, |all[head].path| + 1)
    requires forall e :: e in edges ==> e in EdgesOf(g, all[head].resource)
    ensures var r := Expand(key, all, all[head], edges);
            && Sound(g, start, key, r)
            && Within(r, |all[head].path| + 1)
            && AllTaken(start, key, r, all[head], edges)
    decreases |edges|
  {
    if edges != [] {
      var current, e := all[head], edges[0];
      VisitByDepth(start, key, all, head, e);
      VisitRealPaths(g, start, key, all, head, e);
      hide ByDepth, RealPaths, Within, Taken, AllTaken, Visit;
      var all' := Visit(key, all, current, e);
      VisitExtends(key, all, current, e);
      ExpandSound(g, start, key, all', head, edges[1..]);
      TakenFirst(start, key, all', Expand(key, all', current, edges[1..]), current, edges);
    }
  }

  ghost predicate AllTaken(start: string, key: string, all: seq<GraphPath>, p: GraphPath, edges: seq<Edge>)
  {
    forall i :: 0 <= i < |edges| ==> Taken(start, key, all, p, edges[i])
  }

  lemma VisitExtends(key: string, all: seq<GraphPath>, current: GraphPath, e: Edge)
    ensures all <= Visit(key, all, current, e)
  {
  }

  lemma TakenFirst(start: string, key: string, all: seq<GraphPath>, r: seq<GraphPath>, p: GraphPath, edges: seq<Edge>)
    requires edges != [] && all <= r && Taken(start, key, all, p, edges[0]) && AllTaken(start, key, r, p, edges[1..])
    ensures AllTaken(start, key, r, p, edges)
  {
    hide Found;
    forall i | 0 <= i < |edges| ensures Taken(start, key, r, p, edges[i]) {
      if i > 0 {
        assert edges[i] == edges[1..][i - 1];
      } else if !Blocked(start, key, p.resource, edges[0]) {
        FoundGrows(all, r, edges[0].to, |p.path| + 1);
      }
    }
  }

  lemma SearchStep(g: Forward, start: string, key: string, all: seq<GraphPath>, head: nat)
    requires Searching(g, start, key, all, head) && head < |all|
    ensures Searching(g, start, key, Expand(key, all, all[head], SortedEdges(g, all[head].resource)), head + 1)
  {
    var edges := SortedEdges(g, all[head].resource);
    SortPermutes(EdgeLess, EdgesOf(g, all[head].resource));
    ExpandSound(g, start, key, all, head, edges);
    var r := Expand(key, all, all[head], edges);
    forall i | 0 <= i < head + 1 ensures Followed(g, start, key, r, r[i]) {
      assert r[i] == all[i];
      if i < head {
        assert Followed(g, start, key, all, all[i]);
        forall e | e in EdgesOf(g, all[i].resource) ensures Taken(start, key, r, all[i], e) {
          assert Taken(start, key, all, all[i], e);
          if !Blocked(start, key, all[i].resource, e) {
            FoundGrows(all, r, e.to, |all[i].path| + 1);
          }
        }
      } else {
        forall e | e in EdgesOf(g, all[head].resource) ensures Taken(start, key, r, all[head], e) {
          assert e in edges;
        }
      }
    }
  }

  lemma {:induction false} SearchSound(g: Forward, start: string, key: string, all: seq<GraphPath>, head: nat)
    requires head <= |all| && Searching(g, start, key, all, head)
    ensures var r := Search(g, key, all, head); Searching(g, start, key, r, |r|)
    decreases Nodes(g) - Resources(all), |all| - head
  {
    if head < |all| {
      var next := Expand(key, all, all[head], SortedEdges(g, all[head].resource));
      assert Search(g, key, all, head) == Search(g, key, next, head + 1);
      hide *;
      SearchStep(g, start, key, all, head);
      ExpandShrinks(g, key, all, head);
      SearchSound(g, start, key, next, head + 1);
    }
  }

  lemma {:induction false} ClosedIsComplete(g: Forward, start: string, key: string, all: seq<GraphPath>, path: seq<string>, relations: seq<string>, n: nat)
    requires ByDepth(start, all) && Closed(g, start, key, all, |all|)
    requires IsPath(g, start, key, path, relations) && n < |path|
    ensures Found(all, path[n], n + 1)
  {
    if n > 0 {
      ClosedIsComplete(g, start, key, all, path, relations, n - 1);
      assert Step(g, start, key, path[n - 1], relations[n - 1], path[n]);
      var i :| 0 <= i < |all| && all[i].resource == path[n - 1] && |all[i].path| <= n;
      assert Followed(g, start, key, all, all[i]);
      var e :| e in EdgesOf(g, path[n - 1]) && !Blocked(start, key, path[n - 1], e) && e.relation == relations[n - 1] && e.to == path[n];
      assert Taken(start, key, all, all[i], e);
    } else {
      assert all[0].resource == path[0];
    }
  }

  /** The result of `descendants`: one shortest, correctly labelled path to each
      resource that can be reached, ordered by depth, and never the start itself. */
  ghost predicate ShortestPaths(g: Forward, start: string, key: string, r: seq<GraphPath>)
  {
    && RealPaths(g, start, key, r)
    && (forall i :: 0 <= i < |r| ==> r[i].resource != start)
    && (forall i, j :: 0 <= i < j < |r| ==> r[i].resource != r[j].resource && |r[i].path| <= |r[j].path|)
    && (forall path, relations :: IsPath(g, start, key, path, relations) && path[|path| - 1] != start
          ==> Found(r, path[|path| - 1], |path|))
  }

  lemma DescendantsCorrect(g: Forward, start: string, key: string)
    ensures ShortestPaths(g, start, key, DescendantsOf(g, start, key))
  {
    hide Search, Searching, ShortestPaths;
    SearchBegins(g, start, key);
    SearchSound(g, start, key, [Root(start)], 0);
    TailIsShortest(g, start, key, Search(g, key, [Root(start)], 0));
  }

  lemma SearchBegins(g: Forward, start: string, key: string)
    ensures Searching(g, start, key, [Root(start)], 0)
  {
    assert IsPathTo(g, start, key, Root(start));
  }

  /** A finished search holds, after the start itself, the shortest paths. */
  lemma TailIsShortest(g: Forward, start: string, key: string, all: seq<GraphPath>)
    requires Searching(g, start, key, all, |all|)
    ensures |all| >= 1 && ShortestPaths(g, start, key, all[1..])
  {
    var r := all[1..];
    forall path, relations | IsPath(g, start, key, path, relations) && path[|path| - 1] != start
      ensures Found(r, path[|path| - 1], |path|)
    {
      ClosedIsComplete(g, start, key, all, path, relations, |path| - 1);
      hide IsPath, Closed;
      var i :| 0 <= i < |all| && all[i].resource == path[|path| - 1] && |all[i].path| <= |path|;
      assert r[i - 1] == all[i];
    }
    hide IsPath, Closed;
  }

  /** Membership in the result is reachability by at least one step to another resource. */
  lemma DescendantsAreReachable(g: Forward, start: string, key: string, node: string)
    ensures node in Resources(DescendantsOf(g, start, key)) <==> node != start && Reaches(g, start, key, node)
  {
    DescendantsCorrect(g, start, key);
    var r := DescendantsOf(g, start, key);
    if node in Resources(r) {
      var p :| p in r && p.resource == node;
      var i :| 0 <= i < |r| && r[i] == p;
      assert IsPathTo(g, start, key, p);
    }
    if node != start && Reaches(g, start, key, node) {
      var path, relations :| IsPath(g, start, key, path, relations) && path[|path| - 1] == node;
      assert Found(r, node, |path|);
      var i :| 0 <= i < |r| && r[i].resource == node;
      assert r[i] in r;
    }
  }

  /** The depth map records exactly the discovered resources with their depths. */
  ghost predicate Depths(bestDepth: map<string, nat>, all: seq<GraphPath>)
  {
    && bestDepth.Keys == Resources(all)
    && forall i :: 0 <= i < |all| ==> all[i].resource in bestDepth && bestDepth[all[i].resource] == |all[i].path| - 1
  }

  /** How the program's queue and result list sit inside the list of discovered paths. */
  ghost predicate Views(start: string, all: seq<GraphPath>, head: nat, queue: seq<GraphPath>, result: seq<GraphPath>)
  {
    head <= |all| && queue == all[head..] && all == [Root(start)] + result
  }

  /** The state of the program while it follows the edges of `current`. */
  ghost predicate Following(start: string, all: seq<GraphPath>, head: nat, current: GraphPath,
                            queue: seq<GraphPath>, result: seq<GraphPath>, bestDepth: map<string, nat>)
  {
    && head < |all| && all[head] == current
    && Views(start, all, head + 1, queue, result)
    && Depths(bestDepth, all)
    && ByDepth(start, all)
    && Within(all, |current.path| + 1)
  }

  /** The state of the program between two resources. */
  ghost predicate Pending(start: string, all: seq<GraphPath>, head: nat,
                          queue: seq<GraphPath>, result: seq<GraphPath>, bestDepth: map<string, nat>)
  {
    && Views(start, all, head, queue, result)
    && Depths(bestDepth, all)
    && ByDepth(start, all)
    && (head < |all| ==> Within(all, |all[head].path| + 1))
  }

  lemma Begin(start: string)
    ensures Pending(start, [Root(start)], 0, [Root(start)], [], map[start := 0])
  {
  }

  lemma Dequeue(start: string, all: seq<GraphPath>, head: nat,
                queue: seq<GraphPath>, result: seq<GraphPath>, bestDepth: map<string, nat>)
    requires Pending(start, all, head, queue, result, bestDepth) && queue != []
    ensures head < |all| && all[head] == queue[0] && |queue[0].path| >= 1
    ensures Following(start, all, head, queue[0], queue[1..], result, bestDepth)
  {
  }

  lemma Finish(start: string, all: seq<GraphPath>, head: nat, current: GraphPath,
               queue: seq<GraphPath>, result: seq<GraphPath>, bestDepth: map<string, nat>)
    requires Following(start, all, head, current, queue, result, bestDepth)
    ensures head + 1 <= |all| && |queue| == |all| - head - 1 && all == [Root(start)] + result
    ensures Pending(start, all, head + 1, queue, result, bestDepth)
  {
  }

  /** The depth map answers the question the reference search asks of the discovered set. */
  lemma DepthsAnswer(start: string, all: seq<GraphPath>, head: nat, current: GraphPath,
                     queue: seq<GraphPath>, result: seq<GraphPath>, bestDepth: map<string, nat>, to: string)
    requires Following(start, all, head, current, queue, result, bestDepth)
    ensures to in Resources(all) <==> to in bestDepth && bestDepth[to] <= |current.path|
  {
  }

  lemma DepthsExtend(bestDepth: map<string, nat>, all: seq<GraphPath>, p: GraphPath)
    requires Depths(bestDepth, all) && p.resource !in Resources(all) && |p.path| >= 1
    ensures Depths(bestDepth[p.resource := |p.path| - 1], all + [p])
  {
  }

  lemma FollowNew(start: string, key: string, all: seq<GraphPath>, head: nat, current: GraphPath,
                  queue: seq<GraphPath>, result: seq<GraphPath>, bestDepth: map<string, nat>, e: Edge)
    requires Following(start, all, head, current, queue, result, bestDepth)
    requires Visit(key, all, current, e) == all + [Extend(current, e)] && e.to !in Resources(all)
    ensures var p := Extend(current, e);
            Following(start, all + [p], head, current, queue + [p], result + [p], bestDepth[e.to := |current.path|])
  {
    var p := Extend(current, e);
    hide ByDepth, Depths, Within, Visit, Taken, Resources;
    VisitByDepth(start, key, all, head, e);
    DepthsExtend(bestDepth, all, p);
    assert (all + [p])[head + 1..] == all[head + 1..] + [p];
    assert all + [p] == [Root(start)] + (result + [p]);
  }

  // ---------------------------------------------------------------------------
  // The graph object of the program.

  class DependencyGraph {
    var forward: Forward

    constructor ()
      ensures forward == map[]
    {
      forward := map[];
    }

    /** Adds one edge; self edges, empty ends and duplicates leave the graph alone. */
    method Add(from: string, to: string, relation: string, key: string)
      modifies this
      ensures from == "" || to == "" || from == to || Edge(to, relation, key) in EdgesOf(old(forward), from)
              ==> forward == old(forward)
      ensures from != "" && to != "" && from != to && Edge(to, relation, key) !in EdgesOf(old(forward), from)
              ==> forward == old(forward)[from := EdgesOf(old(forward), from) + [Edge(to, relation, key)]]
    {
      if from == "" || to == "" || from == to {
        return;
      }
      var edges := EdgesOf(forward, from);
      for i := 0 to |edges|
        invariant Edge(to, relation, key) !in edges[..i]
      {
        if edges[i].to == to && edges[i].relation == relation && edges[i].key == key {
          return;
        }
      }
      assert edges[..|edges|] == edges;
      forward := forward[from := edges + [Edge(to, relation, key)]];
    }

    /** The queue-and-depth-map search of the program. */
    method Descendants(start: string, requiredKey: string) returns (result: seq<GraphPath>)
      ensures result == DescendantsOf(forward, start, requiredKey)
    {
      result := [];
      var queue := [Root(start)];
      var bestDepth: map<string, nat> := map[start := 0];
      ghost var all, head := [Root(start)], 0;
      Begin(start);
      hide Pending, Following;
      while queue != []
        invariant head <= |all| && |queue| == |all| - head && all == [Root(start)] + result
        invariant Pending(start, all, head, queue, result, bestDepth)
        invariant Search(forward, requiredKey, all, head) == Search(forward, requiredKey, [Root(start)], 0)
        decreases Nodes(forward) - Resources(all), |queue|
      {
        Dequeue(start, all, head, queue, result, bestDepth);
        var current := queue[0];
        queue := queue[1..];
        var edges := SortedEdges(forward, current.resource);
        ghost var before := all;
        for i := 0 to |edges|
          invariant head < |all| && all[head] == current
          invariant Following(start, all, head, current, queue, result, bestDepth)
          invariant Expand(requiredKey, all, current, edges[i..]) == Expand(requiredKey, before, current, edges)
        {
          var edge := edges[i];
          assert edges[i..][0] == edge && edges[i..][1..] == edges[i + 1..];
          DepthsAnswer(start, all, head, current, queue, result, bestDepth, edge.to);
          if |current.path| == 1 && requiredKey != "" && edge.key != "" && edge.key != requiredKey {
            continue;
          }
          var depth := |current.path|;
          if edge.to in bestDepth && bestDepth[edge.to] <= depth {
            continue;
          }
          FollowNew(start, requiredKey, all, head, current, queue, result, bestDepth, edge);
          bestDepth := bestDepth[edge.to := depth];
          var path := current.path + [edge.to];
          var relations := current.relations + [edge.relation];
          result := result + [GraphPath(edge.to, path, relations)];
          queue := queue + [GraphPath(edge.to, path, relations)];
          all := all + [Extend(current, edge)];
        }
        assert all == Expand(requiredKey, before, current, edges);
        Finish(start, all, head, current, queue, result, bestDepth);
        ExpandShrinks(forward, requiredKey, before, head);
        head := head + 1;
      }
    }
  }
}
