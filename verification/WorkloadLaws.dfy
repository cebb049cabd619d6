/** Who owns a finding, in the words of resource references. */
module WorkloadLaws {
  import opened Text
  import opened Seqs
  import opened Graph
  import opened Model
  import opened Workloads

  // ---------------------------------------------------------------------------
  // References

  /** The reference is of this kind: the kind itself, or the kind before a slash. */
  predicate OfKind(resource: string, kind: string)
  {
    resource == kind || HasPrefix(resource, kind + "/")
  }

  lemma {:induction false} KindIs(resource: string, kind: string)
    requires '/' !in kind
    ensures ResourceKind(resource) == kind <==> OfKind(resource, kind)
  {
    if resource == "" {
      assert HasPrefix(resource, kind + "/") ==> |kind + "/"| == 0;
    } else if resource[0] == '/' {
      assert kind != "" ==> kind[0] in kind;
      assert (kind + "/")[0] == if kind == "" then '/' else kind[0];
    } else if kind != "" {
      assert '/' !in kind[1..];
      KindIs(resource[1..], kind[1..]);
      assert kind == [kind[0]] + kind[1..];
      assert kind + "/" == [kind[0]] + (kind[1..] + "/");
      assert resource == [resource[0]] + resource[1..];
    } else {
      assert Split(resource, '/')[0] != "";
    }
  }

  ghost predicate IsController(resource: string)
  {
    || OfKind(resource, "Deployment") || OfKind(resource, "StatefulSet") || OfKind(resource, "DaemonSet")
    || OfKind(resource, "Job") || OfKind(resource, "CronJob")
  }

  lemma ControllersAre(resource: string)
    ensures IsTopLevelController(ResourceKind(resource)) <==> IsController(resource)
    ensures ResourceKind(resource) == "ReplicaSet" <==> OfKind(resource, "ReplicaSet")
    ensures IsController(resource) || OfKind(resource, "ReplicaSet") ==> resource != ""
  {
    hide ResourceKind;
    KindIs(resource, "Deployment");
    KindIs(resource, "StatefulSet");
    KindIs(resource, "DaemonSet");
    KindIs(resource, "Job");
    KindIs(resource, "CronJob");
    KindIs(resource, "ReplicaSet");
  }

  lemma {:induction false} SplitHead(head: string, rest: string)
    requires '/' !in head
    ensures Split(head + "/" + rest, '/') == [head] + Split(rest, '/')
  {
    var s := head + "/" + rest;
    if head == "" {
      assert s[1..] == rest;
    } else {
      assert s[1..] == head[1..] + "/" + rest;
      SplitHead(head[1..], rest);
      assert head == [head[0]] + head[1..];
    }
  }

  lemma {:induction false} SplitPlain(s: string)
    requires '/' !in s
    ensures Split(s, '/') == [s]
  {
    if s != "" {
      SplitPlain(s[1..]);
      assert s == [s[0]] + s[1..];
    }
  }

  /** The short form of a reference leaves out the namespace. */
  lemma ShortRefIs(kind: string, namespace: string, name: string)
    requires '/' !in kind && '/' !in namespace && '/' !in name
    ensures ShortRef(kind + "/" + namespace + "/" + name) == kind + "/" + name
    ensures ShortRef(kind + "/" + name) == kind + "/" + name && ShortRef(name) == name
  {
    assert kind + "/" + namespace + "/" + name == kind + "/" + (namespace + "/" + name);
    SplitHead(kind, namespace + "/" + name);
    SplitHead(namespace, name);
    SplitHead(kind, name);
    SplitPlain(name);
  }

  // ---------------------------------------------------------------------------
  // Owners

  /** Below a resource that reaches no controller, the owners are the ReplicaSets. */
  lemma ReplicaSetsOwn(g: Forward, resource: string, v: string)
    requires resource != "" && forall c :: Reaches(g, resource, "", c) ==> !IsController(c)
    ensures v in Owners(g, resource) <==> OfKind(v, "ReplicaSet") && Reaches(g, resource, "", v)
  {
    hide Affected, Reaches, IsController, IsTopLevelController, ResourceKind;
    var top := TopLevel(g, resource);
    FilterMembers((r: string) => IsTopLevelController(ResourceKind(r)), Affected(g, resource));
    FilterMembers((r: string) => ResourceKind(r) == "ReplicaSet", Affected(g, resource));
    UniqueRefsMembers(ReplicaSets(g, resource));
    if top != [] {
      assert top[0] in top;
      ControllersAre(top[0]);
      AffectedMembers(g, resource, top[0]);
    }
    ControllersAre(v);
    AffectedMembers(g, resource, v);
  }

  /** Otherwise they are the reached controllers that reach no other one. */
  lemma ControllersOwn(g: Forward, resource: string, v: string)
    requires resource != "" && exists c :: Reaches(g, resource, "", c) && IsController(c)
    ensures v in Owners(g, resource)
            <==> && Reaches(g, resource, "", v) && IsController(v)
                 && forall c :: Reaches(g, resource, "", c) && IsController(c) && c != v ==> !Reaches(g, v, "", c)
  {
    hide Owners, Reaches, IsController, IsTopLevelController, ResourceKind;
    forall c ensures IsOwnerCandidate(g, resource, c) <==> Reaches(g, resource, "", c) && IsController(c) {
      ControllersAre(c);
    }
    var c :| Reaches(g, resource, "", c) && IsController(c);
    assert IsOwnerCandidate(g, resource, c);
    OwnersCharacterised(g, resource, v);
  }

  // ---------------------------------------------------------------------------
  // Without an owner

  ghost predicate Mentions(root: RootCause, finding: Finding)
  {
    root.cause.id == finding.id || finding.id in root.related
  }

  /** An impact of a root that mentions the finding. */
  ghost predicate ImpactedWith(finding: Finding, roots: seq<RootCause>, v: string)
  {
    exists k, i :: 0 <= k < |roots| && Mentions(roots[k], finding) && i in roots[k].direct + roots[k].propagated && i.resource == v
  }

  lemma {:induction false} FromRootsMembers(finding: Finding, roots: seq<RootCause>, wanted: string -> bool, v: string)
    ensures v in FromRoots(finding, roots, wanted) <==> wanted(ResourceKind(v)) && ImpactedWith(finding, roots, v)
  {
    hide ResourceKind;
    if roots != [] {
      var n := |roots| - 1;
      var impacts := ImpactsOf(roots[n]);
      var resources := seq(|impacts|, i requires 0 <= i < |impacts| => impacts[i].resource);
      assert resources == seq(|ImpactsOf(roots[n])|, i requires 0 <= i < |ImpactsOf(roots[n])| => ImpactsOf(roots[n])[i].resource);
      FromRootsMembers(finding, roots[..n], wanted, v);
      FilterMembers((r: string) => wanted(ResourceKind(r)), resources);
      assert v in resources <==> exists i :: i in impacts && i.resource == v by {
        if v in resources {
          var j :| 0 <= j < |resources| && resources[j] == v;
          assert impacts[j] in impacts;
        }
        if i :| i in impacts && i.resource == v {
          var j :| 0 <= j < |impacts| && impacts[j] == i;
          assert resources[j] == v;
        }
      }
      ImpactedStep(finding, roots, v);
    }
  }

  lemma ImpactedStep(finding: Finding, roots: seq<RootCause>, v: string)
    requires roots != []
    ensures var n := |roots| - 1;
            ImpactedWith(finding, roots, v)
            <==> || ImpactedWith(finding, roots[..n], v)
                 || (Mentions(roots[n], finding) && exists i :: i in roots[n].direct + roots[n].propagated && i.resource == v)
  {
    var n := |roots| - 1;
    hide Mentions;
    if k, i :| 0 <= k < n && Mentions(roots[..n][k], finding) && i in roots[..n][k].direct + roots[..n][k].propagated && i.resource == v {
      assert Mentions(roots[k], finding) && i in roots[k].direct + roots[k].propagated;
    }
    if k, i :| 0 <= k < |roots| && Mentions(roots[k], finding) && i in roots[k].direct + roots[k].propagated && i.resource == v {
      if k < n {
        assert Mentions(roots[..n][k], finding) && i in roots[..n][k].direct + roots[..n][k].propagated;
      }
    }
  }

  ghost predicate Related(finding: Finding, roots: seq<RootCause>, v: string)
  {
    v == finding.resource || ImpactedWith(finding, roots, v)
  }

  /** A finding without owners is matched by the controllers that it is or that a root
      with it has an impact on, and without those by such ReplicaSets. */
  lemma FallbackAre(finding: Finding, roots: seq<RootCause>, v: string)
    ensures v in OwnersOrFallback([], finding, roots)
            <==> && Related(finding, roots, v)
                 && (IsController(v) || (OfKind(v, "ReplicaSet") && forall c :: Related(finding, roots, c) ==> !IsController(c)))
  {
    hide IsController, OfKind, ResourceKind, IsTopLevelController, ImpactedWith, FromRoots;
    var kind := ResourceKind(finding.resource);
    var top := FromRoots(finding, roots, IsTopLevelController) + if IsTopLevelController(kind) then [finding.resource] else [];
    var replicaSets := FromRoots(finding, roots, (k: string) => k == "ReplicaSet") + if kind == "ReplicaSet" then [finding.resource] else [];
    forall c ensures c in top <==> Related(finding, roots, c) && IsController(c) {
      FromRootsMembers(finding, roots, IsTopLevelController, c);
      ControllersAre(c);
    }
    FromRootsMembers(finding, roots, (k: string) => k == "ReplicaSet", v);
    ControllersAre(v);
    assert v in replicaSets <==> Related(finding, roots, v) && OfKind(v, "ReplicaSet");
    UniqueRefsMembers(top);
    UniqueRefsMembers(replicaSets);
    if top != [] {
      assert top[0] in top;
    }
    NotBoth(v);
  }

  lemma NotBoth(v: string)
    ensures !(IsController(v) && OfKind(v, "ReplicaSet"))
  {
    ControllersAre(v);
    hide ResourceKind, OfKind;
  }

  /** With owners it is matched by exactly those. */
  lemma OwnersAreKept(owners: seq<string>, finding: Finding, roots: seq<RootCause>, v: string)
    requires owners != []
    ensures v in OwnersOrFallback(owners, finding, roots) <==> v in owners && v != ""
  {
    UniqueRefsMembers(owners);
  }
}
