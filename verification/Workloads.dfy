/** Resolving a finding to its owning workloads, and matching workload rules against them. */
module Workloads {
  import opened Text
  import opened Sorting
  import opened Seqs
  import opened Graph
  import opened Model

  function ResourceKind(resource: string): string
  {
    Split(resource, '/')[0]
  }

  predicate IsTopLevelController(kind: string)
  {
    kind in {"Deployment", "StatefulSet", "DaemonSet", "Job", "CronJob"}
  }

  function NonEmptyOnce(values: seq<string>): seq<string>
  {
    if values == [] then []
    else
      var r, v := NonEmptyOnce(values[..|values| - 1]), values[|values| - 1];
      if v == "" || v in r then r else r + [v]
  }

  /** uniqueResourceRefs: non-empty values once each, sorted. */
  function UniqueRefs(values: seq<string>): seq<string>
  {
    Sort(Less, NonEmptyOnce(values))
  }

  lemma {:induction false} UniqueRefsMembers(values: seq<string>)
    ensures forall v :: v in UniqueRefs(values) <==> v in values && v != ""
  {
    SortPermutes(Less, NonEmptyOnce(values));
    NonEmptyOnceMembers(values);
  }

  lemma {:induction false} NonEmptyOnceMembers(values: seq<string>)
    ensures forall v :: v in NonEmptyOnce(values) <==> v in values && v != ""
  {
    if values != [] {
      NonEmptyOnceMembers(values[..|values| - 1]);
      assert values == values[..|values| - 1] + [values[|values| - 1]];
    }
  }

  method UniqueResourceRefs(values: seq<string>) returns (result: seq<string>)
    ensures result == UniqueRefs(values)
  {
    var seen: set<string> := {};
    var refs := [];
    for i := 0 to |values|
      invariant refs == NonEmptyOnce(values[..i])
      invariant forall v :: v in seen <==> v in refs
    {
      PrefixStep(values, i);
      if values[i] == "" || values[i] in seen {
        continue;
      }
      seen := seen + {values[i]};
      refs := refs + [values[i]];
    }
    assert values[..|values|] == values;
    result := Sort(Less, refs);
  }

  /** The finding's resource followed by everything it reaches. */
  function Affected(g: Forward, resource: string): seq<string>
  {
    var paths := DescendantsOf(g, resource, "");
    [resource] + seq(|paths|, i requires 0 <= i < |paths| => paths[i].resource)
  }

  predicate OwnedByAnother(g: Forward, candidates: seq<string>, value: string)
  {
    exists p :: p in DescendantsOf(g, value, "") && p.resource in candidates
  }

  function Outermost(g: Forward, values: seq<string>): seq<string>
  {
    UniqueRefs(Filter((v: string) => !OwnedByAnother(g, values, v), values))
  }

  function TopLevel(g: Forward, resource: string): seq<string>
  {
    Filter((r: string) => IsTopLevelController(ResourceKind(r)), Affected(g, resource))
  }

  function ReplicaSets(g: Forward, resource: string): seq<string>
  {
    Filter((r: string) => ResourceKind(r) == "ReplicaSet", Affected(g, resource))
  }

  function Owners(g: Forward, resource: string): seq<string>
  {
    if resource == "" then []
    else if |TopLevel(g, resource)| > 0 then Outermost(g, UniqueRefs(TopLevel(g, resource)))
    else UniqueRefs(ReplicaSets(g, resource))
  }

  method OutermostWorkloads(graph: DependencyGraph, values: seq<string>) returns (result: seq<string>)
    ensures result == Outermost(graph.forward, values)
  {
    var kept := [];
    ghost var g := graph.forward;
    for i := 0 to |values|
      invariant kept == Filter((v: string) => !OwnedByAnother(g, values, v), values[..i])
    {
      PrefixStep(values, i);
      var owned := false;
      var paths := graph.Descendants(values[i], "");
      for j := 0 to |paths|
        invariant !owned && forall k :: 0 <= k < j ==> paths[k].resource !in values
      {
        if paths[j].resource in values {
          owned := true;
          assert paths[j] in paths;
          break;
        }
      }
      if !owned {
        kept := kept + [values[i]];
      }
    }
    assert values[..|values|] == values;
    result := UniqueResourceRefs(kept);
  }

  method AffectedResources(graph: DependencyGraph, resource: string) returns (resources: seq<string>)
    ensures resources == Affected(graph.forward, resource)
  {
    var paths := graph.Descendants(resource, "");
    resources := [resource];
    for i := 0 to |paths|
      invariant |resources| == i + 1 && resources[0] == resource
      invariant forall k :: 0 <= k < i ==> resources[k + 1] == paths[k].resource
    {
      resources := resources + [paths[i].resource];
    }
  }

  method SplitByKind(resources: seq<string>) returns (topLevel: seq<string>, replicaSets: seq<string>)
    ensures topLevel == Filter((r: string) => IsTopLevelController(ResourceKind(r)), resources)
    ensures replicaSets == Filter((r: string) => ResourceKind(r) == "ReplicaSet", resources)
  {
    topLevel, replicaSets := [], [];
    for i := 0 to |resources|
      invariant topLevel == Filter((r: string) => IsTopLevelController(ResourceKind(r)), resources[..i])
      invariant replicaSets == Filter((r: string) => ResourceKind(r) == "ReplicaSet", resources[..i])
    {
      PrefixStep(resources, i);
      var kind := ResourceKind(resources[i]);
      if IsTopLevelController(kind) {
        topLevel := topLevel + [resources[i]];
      } else if kind == "ReplicaSet" {
        replicaSets := replicaSets + [resources[i]];
      }
    }
    assert resources[..|resources|] == resources;
  }

  method ResolveUncached(graph: DependencyGraph, resource: string) returns (result: seq<string>)
    requires resource != ""
    ensures result == Owners(graph.forward, resource)
  {
    var resources := AffectedResources(graph, resource);
    var topLevel, replicaSets := SplitByKind(resources);
    result := UniqueResourceRefs(replicaSets);
    if |topLevel| > 0 {
      var unique := UniqueResourceRefs(topLevel);
      result := OutermostWorkloads(graph, unique);
    }
  }

  /** The resolver with its cache; the graph is complete before the first question. */
  class BaselineWorkloadResolver {
    const graph: DependencyGraph
    var cache: map<string, seq<string>>

    constructor (graph: DependencyGraph)
      ensures this.graph == graph && Valid()
    {
      this.graph := graph;
      cache := map[];
    }

    ghost predicate Valid()
      reads this, graph
    {
      forall r :: r in cache ==> cache[r] == Owners(graph.forward, r)
    }

    method Resolve(resource: string) returns (result: seq<string>)
      requires Valid()
      modifies this`cache
      ensures Valid() && result == Owners(graph.forward, resource)
    {
      if resource == "" {
        return [];
      }
      if resource in cache {
        return cache[resource];
      }
      hide Owners;
      result := ResolveUncached(graph, resource);
      cache := cache[resource := result];
    }
  }

  // ---------------------------------------------------------------------------
  // Who the owners are

  ghost predicate Acyclic(g: Forward)
  {
    forall u, v :: u != v && Reaches(g, u, "", v) ==> !Reaches(g, v, "", u)
  }

  lemma ReachesTransitive(g: Forward, u: string, v: string, w: string)
    requires Reaches(g, u, "", v) && Reaches(g, v, "", w)
    ensures Reaches(g, u, "", w)
  {
    var p, pr :| IsPath(g, u, "", p, pr) && p[|p| - 1] == v;
    var q, qr :| IsPath(g, v, "", q, qr) && q[|q| - 1] == w;
    var path, relations := p + q[1..], pr + qr;
    forall i | 0 <= i < |relations| ensures Step(g, u, "", path[i], relations[i], path[i + 1]) {
      if i < |pr| {
        assert Step(g, u, "", p[i], pr[i], p[i + 1]);
      } else {
        assert Step(g, v, "", q[i - |pr|], qr[i - |pr|], q[i - |pr| + 1]);
      }
    }
    assert IsPath(g, u, "", path, relations) && path[|path| - 1] == w;
  }

  lemma ReachesItself(g: Forward, u: string)
    ensures Reaches(g, u, "", u)
  {
    assert IsPath(g, u, "", [u], []);
  }

  lemma AffectedMembers(g: Forward, resource: string, v: string)
    ensures v in Affected(g, resource) <==> Reaches(g, resource, "", v)
  {
    var paths := DescendantsOf(g, resource, "");
    DescendantsAreReachable(g, resource, "", v);
    ReachesItself(g, resource);
    if v in Affected(g, resource) && v != resource {
      var i :| 1 <= i < |Affected(g, resource)| && Affected(g, resource)[i] == v;
      assert paths[i - 1] in paths;
    }
    if v in Resources(paths) {
      var p :| p in paths && p.resource == v;
      var i :| 0 <= i < |paths| && paths[i] == p;
      assert Affected(g, resource)[i + 1] == v;
    }
  }

  lemma OwnedMeansReaches(g: Forward, candidates: seq<string>, v: string)
    ensures OwnedByAnother(g, candidates, v) <==> exists c :: c in candidates && c != v && Reaches(g, v, "", c)
  {
    var paths := DescendantsOf(g, v, "");
    if OwnedByAnother(g, candidates, v) {
      var p :| p in paths && p.resource in candidates;
      DescendantsAreReachable(g, v, "", p.resource);
      assert p.resource in Resources(paths);
    }
    if c :| c in candidates && c != v && Reaches(g, v, "", c) {
      DescendantsAreReachable(g, v, "", c);
      var p :| p in paths && p.resource == c;
    }
  }

  /** The top-level controllers among the resource and everything it reaches. */
  ghost predicate IsOwnerCandidate(g: Forward, resource: string, v: string)
  {
    v != "" && IsTopLevelController(ResourceKind(v)) && Reaches(g, resource, "", v)
  }

  lemma TopLevelMembers(g: Forward, resource: string, v: string)
    ensures v in UniqueRefs(TopLevel(g, resource)) <==> IsOwnerCandidate(g, resource, v)
  {
    UniqueRefsMembers(TopLevel(g, resource));
    FilterMembers((r: string) => IsTopLevelController(ResourceKind(r)), Affected(g, resource));
    AffectedMembers(g, resource, v);
  }

  /** When a top-level controller is affected, the owners are exactly the affected
      top-level controllers that reach no other one. */
  lemma OwnersCharacterised(g: Forward, resource: string, v: string)
    requires resource != "" && exists c :: IsOwnerCandidate(g, resource, c)
    ensures v in Owners(g, resource) <==>
            IsOwnerCandidate(g, resource, v)
            && !exists c :: IsOwnerCandidate(g, resource, c) && c != v && Reaches(g, v, "", c)
  {
    var candidates := UniqueRefs(TopLevel(g, resource));
    var c :| IsOwnerCandidate(g, resource, c);
    TopLevelMembers(g, resource, c);
    assert |TopLevel(g, resource)| > 0 by {
      UniqueRefsMembers(TopLevel(g, resource));
    }
    var p := (x: string) => !OwnedByAnother(g, candidates, x);
    FilterMembers(p, candidates);
    UniqueRefsMembers(Filter(p, candidates));
    TopLevelMembers(g, resource, v);
    OwnedMeansReaches(g, candidates, v);
    forall c ensures c in candidates <==> IsOwnerCandidate(g, resource, c) {
      TopLevelMembers(g, resource, c);
    }
  }

  /** No owner reaches another owner, cycles or not. */
  lemma OwnersAreOutermost(g: Forward, resource: string, v: string, u: string)
    requires resource != "" && exists c :: IsOwnerCandidate(g, resource, c)
    requires v in Owners(g, resource) && u in Owners(g, resource) && u != v
    ensures !Reaches(g, v, "", u)
  {
    OwnersCharacterised(g, resource, v);
    OwnersCharacterised(g, resource, u);
  }

  ghost function CandidatesReached(g: Forward, resource: string, v: string): set<string>
  {
    set c | c in UniqueRefs(TopLevel(g, resource)) && c != v && Reaches(g, v, "", c)
  }

  /** On an acyclic graph every affected top-level controller is an owner or
      reaches one, so no affected workload escapes a workload-scoped rule. */
  lemma {:induction false} OwnersCover(g: Forward, resource: string, v: string)
    requires Acyclic(g) && resource != "" && IsOwnerCandidate(g, resource, v)
    ensures exists o :: o in Owners(g, resource) && Reaches(g, v, "", o)
    decreases CandidatesReached(g, resource, v)
  {
    OwnersCharacterised(g, resource, v);
    if v in Owners(g, resource) {
      ReachesItself(g, v);
    } else {
      var c :| IsOwnerCandidate(g, resource, c) && c != v && Reaches(g, v, "", c);
      TopLevelMembers(g, resource, c);
      forall x | x in CandidatesReached(g, resource, c) ensures x in CandidatesReached(g, resource, v) {
        ReachesTransitive(g, v, c, x);
      }
      assert c in CandidatesReached(g, resource, v) && c !in CandidatesReached(g, resource, c);
      OwnersCover(g, resource, c);
      var o :| o in Owners(g, resource) && Reaches(g, c, "", o);
      ReachesTransitive(g, v, c, o);
    }
  }

  // ---------------------------------------------------------------------------
  // matchWorkload

  function ShortRef(resource: string): string
  {
    var parts := Split(resource, '/');
    if |parts| >= 2 then parts[0] + "/" + parts[|parts| - 1] else resource
  }

  /** `matches` is the wildcard match of a rule pattern. */
  predicate MatchesOwner(matches: (string, string) -> bool, pattern: string, owner: string)
  {
    matches(pattern, owner) || matches(pattern, ShortRef(owner))
  }

  function ImpactsOf(root: RootCause): seq<Impact>
  {
    root.direct + root.propagated
  }

  /** Workloads taken from the impacts of the roots that mention the finding. */
  function FromRoots(finding: Finding, roots: seq<RootCause>, wanted: string -> bool): seq<string>
  {
    if roots == [] then []
    else
      var rest, root := FromRoots(finding, roots[..|roots| - 1], wanted), roots[|roots| - 1];
      if root.cause.id != finding.id && finding.id !in root.related then rest
      else rest + Filter((r: string) => wanted(ResourceKind(r)), seq(|ImpactsOf(root)|, i requires 0 <= i < |ImpactsOf(root)| => ImpactsOf(root)[i].resource))
  }

  function OwnersOrFallback(owners: seq<string>, finding: Finding, roots: seq<RootCause>): seq<string>
  {
    if |owners| > 0 then UniqueRefs(owners)
    else
      var kind := ResourceKind(finding.resource);
      var top := FromRoots(finding, roots, IsTopLevelController)
                 + if IsTopLevelController(kind) then [finding.resource] else [];
      var replicaSets := FromRoots(finding, roots, (k: string) => k == "ReplicaSet")
                         + if kind == "ReplicaSet" then [finding.resource] else [];
      UniqueRefs(if |top| > 0 then top else replicaSets)
  }

  /** A workload rule acknowledges a finding only when it names every workload. */
  method MatchWorkload(matches: (string, string) -> bool, pattern: string, owners: seq<string>, finding: Finding, roots: seq<RootCause>)
    returns (matched: bool, workloads: seq<string>)
    ensures matched <==> pattern == "" ||
                         (|OwnersOrFallback(owners, finding, roots)| > 0 &&
                          forall o :: o in OwnersOrFallback(owners, finding, roots) ==> MatchesOwner(matches, pattern, o))
    ensures matched && pattern != "" ==> workloads == OwnersOrFallback(owners, finding, roots)
    ensures !matched || pattern == "" ==> workloads == []
  {
    if pattern == "" {
      return true, [];
    }
    var candidates := OwnersOrFallback(owners, finding, roots);
    if |candidates| == 0 {
      return false, [];
    }
    for i := 0 to |candidates|
      invariant forall k :: 0 <= k < i ==> MatchesOwner(matches, pattern, candidates[k])
    {
      if !matches(pattern, candidates[i]) && !matches(pattern, ShortRef(candidates[i])) {
        assert candidates[i] in candidates;
        return false, [];
      }
    }
    return true, candidates;
  }

  /** A shared dependency: with an acyclic graph, a matching workload rule names,
      for every affected top-level controller, a workload that owns it. */
  lemma RuleCoversEveryWorkload(g: Forward, matches: (string, string) -> bool, pattern: string, finding: Finding,
                                roots: seq<RootCause>, v: string)
    requires Acyclic(g) && finding.resource != "" && IsOwnerCandidate(g, finding.resource, v)
    requires forall o :: o in OwnersOrFallback(Owners(g, finding.resource), finding, roots) ==> MatchesOwner(matches, pattern, o)
    ensures exists o :: o in Owners(g, finding.resource) && Reaches(g, v, "", o) && MatchesOwner(matches, pattern, o)
  {
    OwnersCover(g, finding.resource, v);
    var o :| o in Owners(g, finding.resource) && Reaches(g, v, "", o);
    UniqueRefsMembers(Owners(g, finding.resource));
    OwnersCharacterised(g, finding.resource, o);
  }
}
