/** What a scheduling verdict says about the Pod, its nodes and the cluster. */
module SchedulingLaws {
  import opened Seqs
  import opened Model
  import opened Scheduling

  // ---------------------------------------------------------------------------
  // Usage

  function Total(pods: seq<Pod>, name: string): int
  {
    if pods == [] then 0
    else Total(pods[..|pods| - 1], name) + var r := pods[|pods| - 1].requests; if name in r then r[name] else 0
  }

  /** A node's usage is what its unfinished Pods request, and one slot for each. */
  lemma {:induction false} UsageIs(pods: seq<Pod>, node: string, name: string)
    requires node != ""
    ensures var active := Filter((p: Pod) => p.nodeName == node && !p.finished, pods);
            InUse(pods, node, name) == Total(active, name) + if name == "pods" then |active| else 0
  {
    if pods != [] {
      UsageIs(pods[..|pods| - 1], node, name);
    }
  }

  // ---------------------------------------------------------------------------
  // One node

  /** The first hard taint that the Pod does not tolerate. */
  ghost predicate FirstRepelling(h: Helpers, pod: Pod, taints: seq<Taint>, t: Taint)
  {
    exists i :: && 0 <= i < |taints| && taints[i] == t && Forbids(h, pod, taints[i])
                && forall j :: 0 <= j < i ==> !Forbids(h, pod, taints[j])
  }

  /** A hard taint that no toleration of the Pod accepts. */
  ghost predicate Forbids(h: Helpers, pod: Pod, t: Taint)
  {
    (t.effect == "NoSchedule" || t.effect == "NoExecute") && forall x :: x in pod.tolerations ==> !h.tolerates(x, t)
  }

  /** The node's own taints, and the cordon's if they do not say it. */
  ghost predicate HasTaint(node: Node, t: Taint)
  {
    t in node.taints || (Cordoned(node) && t == Taint("node.kubernetes.io/unschedulable", "", "NoSchedule"))
  }

  ghost predicate Cordoned(node: Node)
  {
    && node.unschedulable
    && forall t :: t in node.taints && t.key == "node.kubernetes.io/unschedulable" ==> t.effect != "NoSchedule" && t.effect != "NoExecute"
  }

  lemma ForbidsRepels(h: Helpers, pod: Pod, t: Taint)
    ensures Repels(h, pod, t) <==> Forbids(h, pod, t)
  {
    if Tolerated(h, pod, t) {
      var i :| 0 <= i < |pod.tolerations| && h.tolerates(pod.tolerations[i], t);
      assert pod.tolerations[i] in pod.tolerations;
    }
  }

  lemma TaintsAre(node: Node, t: Taint)
    ensures t in EffectiveTaints(node) <==> HasTaint(node, t)
    ensures node.taints <= EffectiveTaints(node) && |EffectiveTaints(node)| <= |node.taints| + 1
  {
    if i :| 0 <= i < |node.taints| && node.taints[i].key == UNSCHEDULABLE && IsHard(node.taints[i]) {
      assert node.taints[i] in node.taints;
    }
  }

  lemma {:induction false} FirstIs(h: Helpers, pod: Pod, taints: seq<Taint>, t: Taint)
    ensures FirstUntolerated(h, pod, taints) == Some(t) <==> FirstRepelling(h, pod, taints, t)
  {
    hide Forbids, Repels;
    if taints != [] {
      ForbidsRepels(h, pod, taints[0]);
      FirstIs(h, pod, taints[1..], t);
      if i :| 0 <= i < |taints| && taints[i] == t && Forbids(h, pod, taints[i]) && forall j :: 0 <= j < i ==> !Forbids(h, pod, taints[j]) {
        if i > 0 {
          assert taints[1..][i - 1] == t;
          assert forall j :: 0 <= j < i - 1 ==> taints[1..][j] == taints[j + 1];
        }
      }
      if !Forbids(h, pod, taints[0]) && FirstRepelling(h, pod, taints[1..], t) {
        var i :| && 0 <= i < |taints[1..]| && taints[1..][i] == t && Forbids(h, pod, taints[1..][i])
                 && forall j :: 0 <= j < i ==> !Forbids(h, pod, taints[1..][j]);
        assert taints[i + 1] == t;
        assert forall j :: 0 < j < i + 1 ==> taints[j] == taints[1..][j - 1];
      }
    }
  }

  /** Every reason that an assessment can give, and when it gives it. */
  ghost predicate Objects(h: Helpers, pod: Pod, node: Node, used: Amounts, volumeReasons: seq<string>, r: Reason)
  {
    match r
    case SelectorMismatch(key, expected) =>
      key in pod.selector && pod.selector[key] == expected && expected != if key in node.labels then node.labels[key] else ""
    case AffinityMismatch => h.affinity(pod, node) == Mismatched
    case Untolerated(t) => HasTaint(node, t) && FirstRepelling(h, pod, EffectiveTaints(node), t)
    case Insufficient(name, requested, available) =>
      && name in pod.requests && pod.requests[name] == requested > 0
      && available == (var free := Amount(node.allocatable, name) - Amount(used, name); if free < 0 then 0 else free)
      && requested > available
    case NoPodSlot => pod.nodeName == "" && "pods" in node.allocatable && node.allocatable["pods"] - Amount(used, "pods") < 1
    case VolumeRefused(text) => text in volumeReasons
  }

  lemma ReasonsAre(h: Helpers, pod: Pod, node: Node, used: Amounts, volumeReasons: seq<string>, r: Reason)
    ensures Refuses(h, pod, node, used, volumeReasons, r) <==> Objects(h, pod, node, used, volumeReasons, r)
  {
    if r.Untolerated? {
      FirstIs(h, pod, EffectiveTaints(node), r.taint);
      TaintsAre(node, r.taint);
      hide FirstUntolerated, EffectiveTaints, HasTaint, Forbids;
    }
  }

  /** The Pods that count as users of the nodes. */
  function Users(s: Situation): seq<Pod>
  {
    if s.allPodsKnown && s.allPods != [] then s.allPods else s.pods
  }

  ghost predicate Matches(s: Situation, node: Node)
  {
    && s.helpers.affinity(s.pod, node) != Mismatched
    && forall key :: key in s.pod.selector ==> s.pod.selector[key] == if key in node.labels then node.labels[key] else ""
  }

  ghost predicate Tolerates(s: Situation, node: Node)
  {
    forall t :: HasTaint(node, t) ==> !Forbids(s.helpers, s.pod, t)
  }

  ghost predicate Binds(s: Situation, node: Node)
  {
    s.volumesKnown ==> s.helpers.volumes(s.pod, node).reasons == []
  }

  ghost predicate HasRoom(s: Situation, node: Node)
  {
    && (forall name :: name in s.pod.requests && s.pod.requests[name] > 0 ==>
          InUse(Users(s), node.name, name) + s.pod.requests[name] <= if name in node.allocatable then node.allocatable[name] else 0)
    && (s.pod.nodeName == "" && "pods" in node.allocatable ==> InUse(Users(s), node.name, "pods") + 1 <= node.allocatable["pods"])
  }

  /** The node can take the Pod as far as the rule can tell. */
  ghost predicate Takes(s: Situation, node: Node)
  {
    Matches(s, node) && Tolerates(s, node) && Binds(s, node) && HasRoom(s, node)
  }

  lemma RefusalsAre(s: Situation, node: Node)
    ensures RefusedFor(s, node, NodeAffinity) <==> !Matches(s, node)
    ensures RefusedFor(s, node, TaintCategory) <==> !Tolerates(s, node)
    ensures RefusedFor(s, node, VolumeCategory) <==> !Binds(s, node)
    ensures RefusedFor(s, node, ResourceCategory) <==> !HasRoom(s, node)
  {
    TaintRefusalIs(s, node);
    hide InUse, Tolerates, EffectiveTaints, Repels;
  }

  lemma TaintRefusalIs(s: Situation, node: Node)
    ensures RefusedFor(s, node, TaintCategory) <==> !Tolerates(s, node)
  {
    var taints := EffectiveTaints(node);
    hide EffectiveTaints, HasTaint, Forbids, Repels;
    forall t ensures (t in taints <==> HasTaint(node, t)) && (Repels(s.helpers, s.pod, t) <==> Forbids(s.helpers, s.pod, t)) {
      TaintsAre(node, t);
      ForbidsRepels(s.helpers, s.pod, t);
    }
    if t :| HasTaint(node, t) && Forbids(s.helpers, s.pod, t) {
      var i :| 0 <= i < |taints| && taints[i] == t;
      assert Repels(s.helpers, s.pod, taints[i]);
    }
  }

  lemma TakesIsFits(s: Situation, node: Node)
    ensures Fits(s, node) <==> Takes(s, node)
  {
    RefusalsAre(s, node);
    hide RefusedFor, Matches, Tolerates, Binds, HasRoom;
    if Takes(s, node) {
      forall c ensures !RefusedFor(s, node, c) {
        match c { case NodeAffinity => case TaintCategory => case VolumeCategory => case ResourceCategory => }
      }
    }
  }

  // ---------------------------------------------------------------------------
  // The verdict

  /** A constraint that the rule names as not evaluated. */
  ghost predicate IsOpen(s: Situation, u: Unknown)
  {
    match u
    case AffinityUnparsable => exists node :: node in s.nodes && s.helpers.affinity(s.pod, node) == Unparsable
    case PodLimitUnreported => s.pod.nodeName == "" && exists node :: node in s.nodes && "pods" !in node.allocatable
    case VolumeUnknown(text) => s.volumesKnown && exists node :: node in s.nodes && text in s.helpers.volumes(s.pod, node).unknowns
    case Unsupported(text) => text in s.helpers.unsupported(s.pod)
    case UsageIsPartial => !s.allPodsKnown
    case VolumesUnread => s.pod.usesVolumes && !s.volumesKnown
  }

  ghost predicate OpenOn(s: Situation, node: Node, u: Unknown)
  {
    match u
    case AffinityUnparsable => s.helpers.affinity(s.pod, node) == Unparsable
    case PodLimitUnreported => s.pod.nodeName == "" && "pods" !in node.allocatable
    case VolumeUnknown(text) => s.volumesKnown && text in s.helpers.volumes(s.pod, node).unknowns
    case _ => false
  }

  lemma UnknownsOnNode(s: Situation, node: Node, u: Unknown)
    ensures u in UnknownsOn(s, node) <==> OpenOn(s, node, u)
  {
    MapMembers(text => VolumeUnknown(text), VolumesOf(s, node).unknowns);
    hide Map;
    assert u in UnknownsOn(s, node) <==> u in NodeUnknowns(s.helpers, s.pod, node) || u in UnknownsFrom(VolumesOf(s, node).unknowns);
  }

  lemma {:induction false} UnknownsOnNodes(s: Situation, nodes: seq<Node>, u: Unknown)
    ensures u in UnknownsOnAll(s, nodes) <==> exists node :: node in nodes && OpenOn(s, node, u)
  {
    hide UnknownsOn, OpenOn;
    if nodes != [] {
      var n := |nodes| - 1;
      assert nodes == nodes[..n] + [nodes[n]];
      UnknownsOnNodes(s, nodes[..n], u);
      UnknownsOnNode(s, nodes[n], u);
    }
  }

  /** The verdict lists exactly the constraints that were not evaluated. */
  lemma UnknownsAre(s: Situation, u: Unknown)
    ensures u in AllUnknowns(s) <==> IsOpen(s, u)
  {
    UnknownsOnNodes(s, s.nodes, u);
    MapMembers(text => Unsupported(text), s.helpers.unsupported(s.pod));
    hide Map, UnknownsOnAll;
  }

  lemma {:induction false} FitCountIs(s: Situation, nodes: seq<Node>)
    ensures FitCount(s, nodes) == |set i | 0 <= i < |nodes| && Takes(s, nodes[i])|
  {
    hide Takes, Fits;
    var all := set i | 0 <= i < |nodes| && Takes(s, nodes[i]);
    if nodes != [] {
      var n := |nodes| - 1;
      var init := set i | 0 <= i < |nodes[..n]| && Takes(s, nodes[..n][i]);
      FitCountIs(s, nodes[..n]);
      TakesIsFits(s, nodes[n]);
      assert all == if Takes(s, nodes[n]) then init + {n} else init;
    } else {
      assert all == {};
    }
  }

  /** The Pod is proved unplaceable. */
  ghost predicate Unplaceable(s: Situation)
  {
    && s.nodes != [] && (forall node :: node in s.nodes ==> !Takes(s, node))
    && (forall u :: !IsOpen(s, u)) && s.directEvidence && s.age >= 300
  }

  /** The code of the verdict. */
  ghost function CodeOf(s: Situation): string
  {
    if exists node :: node in s.nodes && Takes(s, node) then "K8S.SCHEDULING.FAILED_SCHEDULING_REPORTED"
    else if s.nodes == [] then "K8S.SCHEDULING.NO_AVAILABLE_NODE"
    else if forall node :: node in s.nodes ==> !Matches(s, node) then "K8S.SCHEDULING.NODE_AFFINITY_MISMATCH"
    else if forall node :: node in s.nodes ==> !Tolerates(s, node) then "K8S.SCHEDULING.UNTOLERATED_TAINT"
    else if forall node :: node in s.nodes ==> !Binds(s, node) then "K8S.SCHEDULING.PVC_CONSTRAINT"
    else if forall node :: node in s.nodes ==> !HasRoom(s, node) then "K8S.SCHEDULING.INSUFFICIENT_RESOURCES"
    else "K8S.SCHEDULING.NO_AVAILABLE_NODE"
  }

  lemma CodeIs(s: Situation, code: string)
    requires CodeFits(s, code)
    ensures code == CodeOf(s)
  {
    hide Fits, RefusedFor, Matches, Tolerates, Binds, HasRoom, Takes;
    forall node ensures Fits(s, node) <==> Takes(s, node) {
      TakesIsFits(s, node);
    }
    assert SomeNodeFits(s) <==> exists node :: node in s.nodes && Takes(s, node);
    EverywhereAre(s);
    assert ORDER[0] == NodeAffinity && ORDER[1] == TaintCategory && ORDER[2] == VolumeCategory && ORDER[3] == ResourceCategory;
    hide RefusedEverywhere, SomeNodeFits;
    if forall c :: !RefusedEverywhere(s, c) {
    } else {
      FirstExists(s);
      var k :| 0 <= k < |ORDER| && FirstRefused(s, k);
      assert k == 0 || k == 1 || k == 2 || k == 3;
    }
  }

  lemma EverywhereAre(s: Situation)
    ensures RefusedEverywhere(s, NodeAffinity) <==> s.nodes != [] && forall node :: node in s.nodes ==> !Matches(s, node)
    ensures RefusedEverywhere(s, TaintCategory) <==> s.nodes != [] && forall node :: node in s.nodes ==> !Tolerates(s, node)
    ensures RefusedEverywhere(s, VolumeCategory) <==> s.nodes != [] && forall node :: node in s.nodes ==> !Binds(s, node)
    ensures RefusedEverywhere(s, ResourceCategory) <==> s.nodes != [] && forall node :: node in s.nodes ==> !HasRoom(s, node)
  {
    hide RefusedFor, Matches, Tolerates, Binds, HasRoom;
    forall node { RefusalsAre(s, node); }
  }

  /** The whole verdict, from the Pod, the nodes and the cluster. */
  ghost predicate IsVerdict(s: Situation, v: Verdict)
  {
    && (v.severity == Issue <==> Unplaceable(s)) && (v.severity == Warning <==> !Unplaceable(s))
    && v.confidence == (if Unplaceable(s) then 95 else 75)
    && v.code == CodeOf(s)
    && v.feasible == |set i | 0 <= i < |s.nodes| && Takes(s, s.nodes[i])|
    && forall u :: u in v.unknowns <==> IsOpen(s, u)
  }

  /** What Judge promises about its result makes it that verdict. */
  lemma VerdictMeans(s: Situation, v: Verdict)
    requires v.severity == (if IssueOf(s) then Issue else Warning) && v.confidence == if IssueOf(s) then 95 else 75
    requires CodeFits(s, v.code) && v.feasible == FitCount(s, s.nodes) && v.unknowns == AllUnknowns(s)
    ensures IsVerdict(s, v)
  {
    hide Takes, Fits, IsOpen, CodeOf, CodeFits, AllUnknowns, FitCount;
    FitCountIs(s, s.nodes);
    CodeIs(s, v.code);
    forall u ensures u in AllUnknowns(s) <==> IsOpen(s, u) {
      UnknownsAre(s, u);
    }
    if AllUnknowns(s) != [] {
      assert AllUnknowns(s)[0] in AllUnknowns(s);
    }
    forall node ensures Fits(s, node) <==> Takes(s, node) {
      TakesIsFits(s, node);
    }
  }
}
