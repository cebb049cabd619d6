/** In which order the search lists what it finds. */
module GraphLaws {
  import opened Text
  import opened Sorting
  import opened Graph

  /** The same edges leave each node, in whatever order they were added, and no two of
      them have the same text of target and relation. */
  ghost predicate SameEdges(g: Forward, h: Forward)
  {
    forall node :: SameEdgesAt(g, h, node)
  }

  ghost predicate SameEdgesAt(g: Forward, h: Forward, node: string)
  {
    && multiset(EdgesOf(g, node)) == multiset(EdgesOf(h, node))
    && forall e, f :: e in EdgesOf(g, node) && f in EdgesOf(g, node) && e != f ==> e.to + e.relation != f.to + f.relation
  }

  lemma SortedAlike(g: Forward, h: Forward, node: string)
    requires SameEdgesAt(g, h, node)
    ensures SortedEdges(g, node) == SortedEdges(h, node)
  {
    var edges := EdgesOf(g, node);
    LessIsStrictTotalOrder();
    hide Less;
    EdgesAreOrdered();
    assert TotalOn(EdgeLess, edges);
    SortIgnoresInputOrder(EdgeLess, edges, EdgesOf(h, node));
  }

  lemma EdgesAreOrdered()
    ensures WeakOrder(EdgeLess)
  {
    LessIsStrictTotalOrder();
    hide Less;
    forall x, y, z: Edge | !EdgeLess(y, x) && !EdgeLess(z, y) ensures !EdgeLess(z, x) {
      var a, b, c := x.to + x.relation, y.to + y.relation, z.to + z.relation;
      assert a == b || Less(a, b);
      assert b == c || Less(b, c);
    }
  }

  /** What a search lists, and the path it gives for each resource, do not depend on
      the order in which the edges were added. */
  lemma {:induction false} SearchIgnoresInsertion(g: Forward, h: Forward, key: string, all: seq<GraphPath>, head: nat)
    requires head <= |all| && SameEdges(g, h)
    ensures Search(g, key, all, head) == Search(h, key, all, head)
    decreases Nodes(g) - Resources(all), |all| - head
  {
    if head < |all| {
      var node := all[head].resource;
      assert SameEdgesAt(g, h, node);
      SortedAlike(g, h, node);
      var next := Expand(key, all, all[head], SortedEdges(g, node));
      ExpandShrinks(g, key, all, head);
      hide Expand, SortedEdges, Nodes, Resources, SameEdges;
      SearchIgnoresInsertion(g, h, key, next, head + 1);
    }
  }

  lemma DescendantsIgnoreInsertion(g: Forward, h: Forward, start: string, key: string)
    requires SameEdges(g, h)
    ensures DescendantsOf(g, start, key) == DescendantsOf(h, start, key)
  {
    SearchIgnoresInsertion(g, h, key, [Root(start)], 0);
    hide Search;
  }
}
