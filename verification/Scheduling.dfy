/** Can a pending Pod be placed, and if not, why not. */
module Scheduling {
  import opened Seqs
  import opened Model

  // ---------------------------------------------------------------------------
  // Pods, nodes and what the component helpers say about them

  /** Resource quantities by resource name; an absent name counts as zero. */
  type Amounts = map<string, int>

  function Amount(m: Amounts, name: string): int
  {
    if name in m then m[name] else 0
  }

  const PODS := "pods"

  datatype Taint = Taint(key: string, value: string, effect: string)

  datatype Toleration = Toleration(key: string, operator: string, value: string, effect: string)

  datatype Pod = Pod(name: string, nodeName: string, finished: bool, requests: Amounts, selector: map<string, string>,
                     tolerations: seq<Toleration>, usesVolumes: bool)

  datatype Node = Node(name: string, labels: map<string, string>, allocatable: Amounts, taints: seq<Taint>, unschedulable: bool)

  datatype Affinity = NotRequired | Matched | Mismatched | Unparsable

  datatype Volumes = Volumes(reasons: seq<string>, unknowns: seq<string>)

  /** The decisions that the Kubernetes component helpers and the volume rules make. */
  datatype Helpers = Helpers(tolerates: (Toleration, Taint) -> bool, affinity: (Pod, Node) -> Affinity,
                             volumes: (Pod, Node) -> Volumes, unsupported: Pod -> seq<string>)

  datatype Category = NodeAffinity | TaintCategory | VolumeCategory | ResourceCategory

  datatype Reason =
    | SelectorMismatch(key: string, expected: string)
    | AffinityMismatch
    | Untolerated(taint: Taint)
    | Insufficient(resource: string, requested: int, available: int)
    | NoPodSlot
    | VolumeRefused(text: string)

  datatype Unknown = AffinityUnparsable | PodLimitUnreported | VolumeUnknown(text: string) | Unsupported(text: string)
                   | UsageIsPartial | VolumesUnread

  datatype Assessment = Assessment(node: string, reasons: seq<Reason>, unknowns: seq<Unknown>, categories: set<Category>)

  function CategoryOf(r: Reason): Category
  {
    match r
    case SelectorMismatch(_, _) => NodeAffinity
    case AffinityMismatch => NodeAffinity
    case Untolerated(_) => TaintCategory
    case Insufficient(_, _, _) => ResourceCategory
    case NoPodSlot => ResourceCategory
    case VolumeRefused(_) => VolumeCategory
  }

  // ---------------------------------------------------------------------------
  // What the assigned Pods use

  /** What one Pod takes from a node: its requests and one Pod slot. */
  function Weight(pod: Pod, node: string, name: string): int
  {
    if pod.nodeName == "" || pod.finished || pod.nodeName != node then 0
    else Amount(pod.requests, name) + if name == PODS then 1 else 0
  }

  function InUse(pods: seq<Pod>, node: string, name: string): int
  {
    if pods == [] then 0 else InUse(pods[..|pods| - 1], node, name) + Weight(pods[|pods| - 1], node, name)
  }

  function UsedOn(table: map<string, Amounts>, node: string): Amounts
  {
    if node in table then table[node] else map[]
  }

  method AddResourceList(target: Amounts, values: Amounts) returns (result: Amounts)
    ensures forall name :: Amount(result, name) == Amount(target, name) + Amount(values, name)
  {
    result := target;
    var rest := values.Keys;
    while rest != {}
      invariant rest <= values.Keys
      invariant forall name ::
        Amount(result, name) == Amount(target, name) + if name in rest then 0 else Amount(values, name)
      decreases |rest|
    {
      var name :| name in rest;
      result := result[name := Amount(result, name) + values[name]];
      rest := rest - {name};
    }
  }

  method AssignedRequests(pods: seq<Pod>) returns (result: map<string, Amounts>)
    ensures forall node, name :: Amount(UsedOn(result, node), name) == InUse(pods, node, name)
  {
    result := map[];
    for i := 0 to |pods|
      invariant forall node, name :: Amount(UsedOn(result, node), name) == InUse(pods[..i], node, name)
    {
      PrefixStep(pods, i);
      var pod := pods[i];
      if pod.nodeName == "" || pod.finished {
        continue;
      }
      var used := AddResourceList(UsedOn(result, pod.nodeName), pod.requests);
      used := used[PODS := Amount(used, PODS) + 1];
      result := result[pod.nodeName := used];
    }
    assert pods[..|pods|] == pods;
  }

  // ---------------------------------------------------------------------------
  // One node

  /** A missing label reads as the empty text. */
  function Label(node: Node, key: string): string
  {
    if key in node.labels then node.labels[key] else ""
  }

  predicate IsHard(taint: Taint)
  {
    taint.effect == "NoSchedule" || taint.effect == "NoExecute"
  }

  const UNSCHEDULABLE := "node.kubernetes.io/unschedulable"

  /** The taints of a node, with the one that a cordoned node must have. */
  function EffectiveTaints(node: Node): seq<Taint>
  {
    if node.unschedulable && !(exists i :: 0 <= i < |node.taints| && node.taints[i].key == UNSCHEDULABLE && IsHard(node.taints[i]))
    then node.taints + [Taint(UNSCHEDULABLE, "", "NoSchedule")]
    else node.taints
  }

  predicate Tolerated(h: Helpers, pod: Pod, taint: Taint)
  {
    exists i :: 0 <= i < |pod.tolerations| && h.tolerates(pod.tolerations[i], taint)
  }

  predicate Repels(h: Helpers, pod: Pod, taint: Taint)
  {
    IsHard(taint) && !Tolerated(h, pod, taint)
  }

  /** The first hard taint that no toleration accepts. */
  function FirstUntolerated(h: Helpers, pod: Pod, taints: seq<Taint>): Option<Taint>
  {
    if taints == [] then None
    else if Repels(h, pod, taints[0]) then Some(taints[0])
    else FirstUntolerated(h, pod, taints[1..])
  }

  /** Free capacity, never below zero. */
  function Free(node: Node, used: Amounts, name: string): int
  {
    Max(0, Amount(node.allocatable, name) - Amount(used, name))
  }

  predicate RefusesSelector(pod: Pod, node: Node, r: Reason)
  {
    r.SelectorMismatch? && r.key in pod.selector && pod.selector[r.key] == r.expected && Label(node, r.key) != r.expected
  }

  predicate RefusesTaint(h: Helpers, pod: Pod, node: Node, r: Reason)
  {
    r.Untolerated? && FirstUntolerated(h, pod, EffectiveTaints(node)) == Some(r.taint)
  }

  predicate RefusesResource(pod: Pod, node: Node, used: Amounts, r: Reason)
  {
    && r.Insufficient? && r.resource in pod.requests && pod.requests[r.resource] == r.requested > 0
    && r.available == Free(node, used, r.resource) && r.requested > r.available
  }

  predicate RefusesSlot(pod: Pod, node: Node, used: Amounts)
  {
    pod.nodeName == "" && PODS in node.allocatable && 1 > node.allocatable[PODS] - Amount(used, PODS)
  }

  /** The reasons for which a node is refused. */
  predicate Refuses(h: Helpers, pod: Pod, node: Node, used: Amounts, volumeReasons: seq<string>, r: Reason)
  {
    match r
    case SelectorMismatch(_, _) => RefusesSelector(pod, node, r)
    case AffinityMismatch => h.affinity(pod, node) == Mismatched
    case Untolerated(_) => RefusesTaint(h, pod, node, r)
    case Insufficient(_, _, _) => RefusesResource(pod, node, used, r)
    case NoPodSlot => RefusesSlot(pod, node, used)
    case VolumeRefused(text) => text in volumeReasons
  }

  function NodeUnknowns(h: Helpers, pod: Pod, node: Node): seq<Unknown>
  {
    (if h.affinity(pod, node) == Unparsable then [AffinityUnparsable] else [])
    + (if pod.nodeName == "" && PODS !in node.allocatable then [PodLimitUnreported] else [])
  }

  function Reject(a: Assessment, r: Reason): Assessment
  {
    a.(reasons := a.reasons + [r], categories := a.categories + {CategoryOf(r)})
  }

  /** The categories are those of the reasons. */
  ghost predicate Labelled(a: Assessment)
  {
    forall c :: c in a.categories <==> exists r :: r in a.reasons && CategoryOf(r) == c
  }

  lemma RejectLabels(a: Assessment, r: Reason)
    requires Labelled(a)
    ensures Labelled(Reject(a, r)) && forall x :: x in Reject(a, r).reasons <==> x in a.reasons || x == r
  {
  }

  function NoteUnknown(a: Assessment, u: Unknown): (b: Assessment)
    ensures Labelled(a) ==> Labelled(b)
  {
    a.(unknowns := a.unknowns + [u])
  }

  method CheckSelector(pod: Pod, node: Node, before: Assessment) returns (a: Assessment)
    requires Labelled(before)
    ensures Labelled(a) && a.unknowns == before.unknowns && a.node == before.node
    ensures forall r :: r in a.reasons <==> r in before.reasons || RefusesSelector(pod, node, r)
  {
    a := before;
    var rest := pod.selector.Keys;
    while rest != {}
      invariant rest <= pod.selector.Keys
      invariant Labelled(a) && a.unknowns == before.unknowns && a.node == before.node
      invariant forall r :: r in a.reasons <==> r in before.reasons || (RefusesSelector(pod, node, r) && r.key !in rest)
      decreases |rest|
    {
      var key :| key in rest;
      rest := rest - {key};
      hide Labelled;
      if Label(node, key) != pod.selector[key] {
        var r := SelectorMismatch(key, pod.selector[key]);
        RejectLabels(a, r);
        a := Reject(a, r);
      }
    }
  }

  method CheckResources(pod: Pod, node: Node, used: Amounts, before: Assessment) returns (a: Assessment)
    requires Labelled(before)
    ensures Labelled(a) && a.unknowns == before.unknowns && a.node == before.node
    ensures forall r :: r in a.reasons <==> r in before.reasons || RefusesResource(pod, node, used, r)
  {
    a := before;
    var rest := pod.requests.Keys;
    while rest != {}
      invariant rest <= pod.requests.Keys
      invariant Labelled(a) && a.unknowns == before.unknowns && a.node == before.node
      invariant forall r ::
        r in a.reasons <==> r in before.reasons || (RefusesResource(pod, node, used, r) && r.resource !in rest)
      decreases |rest|
    {
      var name :| name in rest;
      rest := rest - {name};
      hide Labelled;
      var requested := pod.requests[name];
      if requested <= 0 {
        continue;
      }
      var available := if name in node.allocatable then node.allocatable[name] else 0;
      if name in used {
        available := available - used[name];
      }
      if available < 0 {
        available := 0;
      }
      if requested > available {
        var r := Insufficient(name, requested, available);
        RejectLabels(a, r);
        a := Reject(a, r);
      }
    }
  }

  method CheckTaints(h: Helpers, pod: Pod, node: Node, before: Assessment) returns (a: Assessment)
    requires Labelled(before)
    ensures Labelled(a) && a.unknowns == before.unknowns && a.node == before.node
    ensures forall r :: r in a.reasons <==> r in before.reasons || RefusesTaint(h, pod, node, r)
  {
    a := before;
    var cordoned := node.unschedulable;
    for i := 0 to |node.taints|
      invariant cordoned == (node.unschedulable &&
        !(exists k :: 0 <= k < i && node.taints[k].key == UNSCHEDULABLE && IsHard(node.taints[k])))
    {
      if node.taints[i].key == UNSCHEDULABLE && IsHard(node.taints[i]) {
        cordoned := false;
      }
    }
    var taints := if cordoned then node.taints + [Taint(UNSCHEDULABLE, "", "NoSchedule")] else node.taints;
    assert taints == EffectiveTaints(node);
    var found := FirstUntolerated(h, pod, taints);
    if found.Some? {
      RejectLabels(a, Untolerated(found.value));
      a := Reject(a, Untolerated(found.value));
    }
  }

  method CheckVolumes(texts: seq<string>, before: Assessment) returns (a: Assessment)
    requires Labelled(before)
    ensures Labelled(a) && a.unknowns == before.unknowns && a.node == before.node
    ensures forall r :: r in a.reasons <==> r in before.reasons || (r.VolumeRefused? && r.text in texts)
  {
    a := before;
    for i := 0 to |texts|
      invariant Labelled(a) && a.unknowns == before.unknowns && a.node == before.node
      invariant forall r :: r in a.reasons <==> r in before.reasons || (r.VolumeRefused? && r.text in texts[..i])
    {
      hide Labelled;
      assert texts[..i + 1] == texts[..i] + [texts[i]];
      RejectLabels(a, VolumeRefused(texts[i]));
      a := Reject(a, VolumeRefused(texts[i]));
    }
    assert texts[..|texts|] == texts;
  }

  method AssessNode(h: Helpers, pod: Pod, node: Node, used: Amounts, volumeReasons: seq<string>) returns (a: Assessment)
    ensures forall r :: r in a.reasons <==> Refuses(h, pod, node, used, volumeReasons, r)
    ensures Labelled(a) && a.node == node.name && a.unknowns == NodeUnknowns(h, pod, node)
  {
    a := Assessment(node.name, [], [], {});
    assert Labelled(a);
    hide Labelled;
    a := CheckSelector(pod, node, a);
    match h.affinity(pod, node) {
      case Unparsable =>
        a := NoteUnknown(a, AffinityUnparsable);
      case Mismatched =>
        RejectLabels(a, AffinityMismatch);
        a := Reject(a, AffinityMismatch);
      case _ =>
    }
    a := CheckTaints(h, pod, node, a);
    a := CheckResources(pod, node, used, a);
    if pod.nodeName == "" {
      if PODS in node.allocatable {
        if 1 > node.allocatable[PODS] - Amount(used, PODS) {
          RejectLabels(a, NoPodSlot);
          a := Reject(a, NoPodSlot);
        }
      } else {
        a := NoteUnknown(a, PodLimitUnreported);
      }
    }
    a := CheckVolumes(volumeReasons, a);
  }

  // ---------------------------------------------------------------------------
  // What a node must offer

  /** The inputs of the verdict on one pending Pod. */
  datatype Situation = Situation(helpers: Helpers, pod: Pod, nodes: seq<Node>, pods: seq<Pod>, allPods: seq<Pod>,
                                 allPodsKnown: bool, volumesKnown: bool, directEvidence: bool, age: int)

  /** Usage is counted over the whole cluster when its Pods could be read. */
  function Counted(s: Situation): seq<Pod>
  {
    if !s.allPodsKnown || |s.allPods| == 0 then s.pods else s.allPods
  }

  function VolumesOf(s: Situation, node: Node): Volumes
  {
    if s.volumesKnown then s.helpers.volumes(s.pod, node) else Volumes([], [])
  }

  /** Resource arithmetic without clamping: usage and request together fit. */
  ghost predicate Affords(pod: Pod, node: Node, pods: seq<Pod>)
  {
    && (forall name :: name in pod.requests && pod.requests[name] > 0 ==>
          InUse(pods, node.name, name) + pod.requests[name] <= Amount(node.allocatable, name))
    && (pod.nodeName == "" && PODS in node.allocatable ==> InUse(pods, node.name, PODS) + 1 <= node.allocatable[PODS])
  }

  ghost predicate RefusedFor(s: Situation, node: Node, c: Category)
  {
    match c
    case NodeAffinity =>
      || s.helpers.affinity(s.pod, node) == Mismatched
      || exists key :: key in s.pod.selector && Label(node, key) != s.pod.selector[key]
    case TaintCategory => exists i :: 0 <= i < |EffectiveTaints(node)| && Repels(s.helpers, s.pod, EffectiveTaints(node)[i])
    case VolumeCategory => VolumesOf(s, node).reasons != []
    case ResourceCategory => !Affords(s.pod, node, Counted(s))
  }

  ghost predicate Fits(s: Situation, node: Node)
  {
    forall c :: !RefusedFor(s, node, c)
  }

  lemma {:induction false} FirstUntoleratedFinds(h: Helpers, pod: Pod, taints: seq<Taint>)
    ensures FirstUntolerated(h, pod, taints).Some? <==> exists i :: 0 <= i < |taints| && Repels(h, pod, taints[i])
  {
    if taints != [] {
      FirstUntoleratedFinds(h, pod, taints[1..]);
      if i :| 0 <= i < |taints| && Repels(h, pod, taints[i]) {
        if i > 0 {
          assert taints[1..][i - 1] == taints[i];
        }
      }
    }
  }

  ghost predicate UsageOf(used: Amounts, pods: seq<Pod>, node: string)
  {
    forall name :: Amount(used, name) == InUse(pods, node, name)
  }

  /** A node is refused in a category exactly when one of the assessed reasons is of that category. */
  lemma RefusalsByCategory(s: Situation, node: Node, used: Amounts, c: Category)
    requires UsageOf(used, Counted(s), node.name)
    ensures RefusedFor(s, node, c)
            <==> exists r :: Refuses(s.helpers, s.pod, node, used, VolumesOf(s, node).reasons, r) && CategoryOf(r) == c
  {
    match c {
      case NodeAffinity => AffinityRefusals(s, node, used);
      case TaintCategory => TaintRefusals(s, node, used);
      case VolumeCategory => VolumeRefusals(s, node, used);
      case ResourceCategory => ResourceRefusals(s, node, used);
    }
  }

  lemma AffinityRefusals(s: Situation, node: Node, used: Amounts)
    ensures RefusedFor(s, node, NodeAffinity)
            <==> exists r :: Refuses(s.helpers, s.pod, node, used, VolumesOf(s, node).reasons, r) && CategoryOf(r) == NodeAffinity
  {
    var reasons := VolumesOf(s, node).reasons;
    hide VolumesOf;
    if s.helpers.affinity(s.pod, node) == Mismatched {
      assert Refuses(s.helpers, s.pod, node, used, reasons, AffinityMismatch);
    }
    if key :| key in s.pod.selector && Label(node, key) != s.pod.selector[key] {
      assert Refuses(s.helpers, s.pod, node, used, reasons, SelectorMismatch(key, s.pod.selector[key]));
    }
  }

  lemma TaintRefusals(s: Situation, node: Node, used: Amounts)
    ensures RefusedFor(s, node, TaintCategory)
            <==> exists r :: Refuses(s.helpers, s.pod, node, used, VolumesOf(s, node).reasons, r) && CategoryOf(r) == TaintCategory
  {
    var found := FirstUntolerated(s.helpers, s.pod, EffectiveTaints(node));
    FirstUntoleratedFinds(s.helpers, s.pod, EffectiveTaints(node));
    hide VolumesOf, EffectiveTaints, FirstUntolerated;
    if found.Some? {
      assert Refuses(s.helpers, s.pod, node, used, VolumesOf(s, node).reasons, Untolerated(found.value));
    }
  }

  lemma VolumeRefusals(s: Situation, node: Node, used: Amounts)
    ensures RefusedFor(s, node, VolumeCategory)
            <==> exists r :: Refuses(s.helpers, s.pod, node, used, VolumesOf(s, node).reasons, r) && CategoryOf(r) == VolumeCategory
  {
    var reasons := VolumesOf(s, node).reasons;
    hide VolumesOf;
    if reasons != [] {
      assert Refuses(s.helpers, s.pod, node, used, reasons, VolumeRefused(reasons[0]));
    }
  }

  lemma ResourceRefusals(s: Situation, node: Node, used: Amounts)
    requires UsageOf(used, Counted(s), node.name)
    ensures RefusedFor(s, node, ResourceCategory)
            <==> exists r :: Refuses(s.helpers, s.pod, node, used, VolumesOf(s, node).reasons, r) && CategoryOf(r) == ResourceCategory
  {
    var reasons, pod := VolumesOf(s, node).reasons, s.pod;
    hide VolumesOf, Counted, InUse;
    forall name | name in pod.requests && pod.requests[name] > 0
      ensures InUse(Counted(s), node.name, name) + pod.requests[name] <= Amount(node.allocatable, name)
              <==> !Refuses(s.helpers, pod, node, used, reasons, Insufficient(name, pod.requests[name], Free(node, used, name)))
    {
      assert Amount(used, name) == InUse(Counted(s), node.name, name);
    }
    assert Amount(used, PODS) == InUse(Counted(s), node.name, PODS);
    assert Refuses(s.helpers, pod, node, used, reasons, NoPodSlot) <==> RefusesSlot(pod, node, used);
  }

  /** A node gets no reason exactly when it passes every predicate and usage plus
      request fits, although the code compares with the clamped free amount. */
  lemma FitsExactly(s: Situation, node: Node, used: Amounts)
    requires UsageOf(used, Counted(s), node.name)
    ensures Fits(s, node) <==> forall r :: !Refuses(s.helpers, s.pod, node, used, VolumesOf(s, node).reasons, r)
  {
    hide RefusedFor, Refuses, VolumesOf;
    forall c ensures RefusedFor(s, node, c)
                     <==> exists r :: Refuses(s.helpers, s.pod, node, used, VolumesOf(s, node).reasons, r) && CategoryOf(r) == c
    {
      RefusalsByCategory(s, node, used, c);
    }
    if r :| Refuses(s.helpers, s.pod, node, used, VolumesOf(s, node).reasons, r) {
      assert RefusedFor(s, node, CategoryOf(r));
    }
  }

  // ---------------------------------------------------------------------------
  // The verdict

  datatype Verdict = Verdict(severity: Severity, confidence: int, code: string, feasible: nat, unknowns: seq<Unknown>)

  const REPORTED := "K8S.SCHEDULING.FAILED_SCHEDULING_REPORTED"
  const NO_NODE := "K8S.SCHEDULING.NO_AVAILABLE_NODE"

  function CategoryCode(c: Category): string
  {
    match c
    case NodeAffinity => "K8S.SCHEDULING.NODE_AFFINITY_MISMATCH"
    case TaintCategory => "K8S.SCHEDULING.UNTOLERATED_TAINT"
    case VolumeCategory => "K8S.SCHEDULING.PVC_CONSTRAINT"
    case ResourceCategory => "K8S.SCHEDULING.INSUFFICIENT_RESOURCES"
  }

  const ORDER := [NodeAffinity, TaintCategory, VolumeCategory, ResourceCategory]

  predicate EveryHas(assessments: seq<Assessment>, c: Category)
  {
    assessments != [] && forall i :: 0 <= i < |assessments| ==> c in assessments[i].categories
  }

  function Count(assessments: seq<Assessment>, c: Category): (n: nat)
    ensures n <= |assessments|
    ensures n == |assessments| <==> forall i :: 0 <= i < |assessments| ==> c in assessments[i].categories
  {
    if assessments == [] then 0
    else
      var n := |assessments| - 1;
      Count(assessments[..n], c) + if c in assessments[n].categories then 1 else 0
  }

  ghost predicate IsFirst(assessments: seq<Assessment>, k: nat)
    requires k < |ORDER|
  {
    EveryHas(assessments, ORDER[k]) && forall j :: 0 <= j < k ==> !EveryHas(assessments, ORDER[j])
  }

  method AddCategories(before: map<Category, int>, categories: set<Category>) returns (counts: map<Category, int>)
    requires forall c :: c in before
    ensures forall c :: c in counts && counts[c] == before[c] + if c in categories then 1 else 0
  {
    counts := before;
    var rest := categories;
    while rest != {}
      invariant rest <= categories
      invariant forall c :: c in counts && counts[c] == before[c] + if c in categories && c !in rest then 1 else 0
      decreases |rest|
    {
      var category :| category in rest;
      counts := counts[category := counts[category] + 1];
      rest := rest - {category};
    }
  }

  method CountCategories(assessments: seq<Assessment>) returns (counts: map<Category, int>)
    ensures forall c :: c in counts && counts[c] == Count(assessments, c)
  {
    counts := map[NodeAffinity := 0, TaintCategory := 0, VolumeCategory := 0, ResourceCategory := 0];
    forall c: Category ensures c in counts && counts[c] == 0 {
      match c { case NodeAffinity => case TaintCategory => case VolumeCategory => case ResourceCategory => }
    }
    for i := 0 to |assessments|
      invariant forall c :: c in counts && counts[c] == Count(assessments[..i], c)
    {
      PrefixStep(assessments, i);
      counts := AddCategories(counts, assessments[i].categories);
    }
    assert assessments[..|assessments|] == assessments;
  }

  /** The code of the first category, in the fixed order, that every node was refused for. */
  method DominantSchedulingCode(assessments: seq<Assessment>) returns (code: string)
    ensures forall k :: 0 <= k < |ORDER| && IsFirst(assessments, k) ==> code == CategoryCode(ORDER[k])
    ensures (forall c :: !EveryHas(assessments, c)) ==> code == NO_NODE
  {
    var counts := CountCategories(assessments);
    for k := 0 to |ORDER|
      invariant forall j :: 0 <= j < k ==> !EveryHas(assessments, ORDER[j])
    {
      if |assessments| > 0 && counts[ORDER[k]] == |assessments| {
        assert EveryHas(assessments, ORDER[k]);
        return CategoryCode(ORDER[k]);
      }
    }
    return NO_NODE;
  }

  lemma Ordered(c: Category)
    ensures exists k :: 0 <= k < |ORDER| && ORDER[k] == c
  {
    var k := match c case NodeAffinity => 0 case TaintCategory => 1 case VolumeCategory => 2 case ResourceCategory => 3;
    assert ORDER[k] == c;
  }

  function UnknownsFrom(texts: seq<string>): seq<Unknown>
  {
    Map(text => VolumeUnknown(text), texts)
  }

  function UnknownsOn(s: Situation, node: Node): seq<Unknown>
  {
    NodeUnknowns(s.helpers, s.pod, node) + UnknownsFrom(VolumesOf(s, node).unknowns)
  }

  function UnknownsOnAll(s: Situation, nodes: seq<Node>): seq<Unknown>
  {
    if nodes == [] then [] else UnknownsOnAll(s, nodes[..|nodes| - 1]) + UnknownsOn(s, nodes[|nodes| - 1])
  }

  function PodUnknowns(s: Situation): seq<Unknown>
  {
    Map(text => Unsupported(text), s.helpers.unsupported(s.pod))
    + (if s.allPodsKnown then [] else [UsageIsPartial])
    + (if s.pod.usesVolumes && !s.volumesKnown then [VolumesUnread] else [])
  }

  /** Every constraint that the verdict could not evaluate. */
  function AllUnknowns(s: Situation): seq<Unknown>
  {
    PodUnknowns(s) + UnknownsOnAll(s, s.nodes)
  }

  /** The Pod is proved unplaceable: no node fits, every constraint was evaluated,
      the scheduler itself reported it, and it has lasted five minutes. */
  ghost predicate IssueOf(s: Situation)
  {
    && s.nodes != [] && (forall node :: node in s.nodes ==> !Fits(s, node))
    && AllUnknowns(s) == []
    && s.directEvidence && s.age >= 300
  }

  ghost predicate RefusedEverywhere(s: Situation, c: Category)
  {
    s.nodes != [] && forall node :: node in s.nodes ==> RefusedFor(s, node, c)
  }

  ghost predicate FirstRefused(s: Situation, k: nat)
    requires k < |ORDER|
  {
    RefusedEverywhere(s, ORDER[k]) && forall j :: 0 <= j < k ==> !RefusedEverywhere(s, ORDER[j])
  }

  ghost predicate SomeNodeFits(s: Situation)
  {
    exists node :: node in s.nodes && Fits(s, node)
  }

  ghost function FitCount(s: Situation, nodes: seq<Node>): nat
  {
    if nodes == [] then 0
    else FitCount(s, nodes[..|nodes| - 1]) + if Fits(s, nodes[|nodes| - 1]) then 1 else 0
  }

  /** The assessment says of the node exactly what holds of it. */
  ghost predicate Assessed(s: Situation, node: Node, a: Assessment)
  {
    && (a.reasons == [] <==> Fits(s, node))
    && (forall c :: c in a.categories <==> RefusedFor(s, node, c))
    && a.unknowns == UnknownsOn(s, node)
  }

  lemma AssessmentMeans(s: Situation, node: Node, used: Amounts, a: Assessment)
    requires UsageOf(used, Counted(s), node.name) && Labelled(a)
    requires forall r :: r in a.reasons <==> Refuses(s.helpers, s.pod, node, used, VolumesOf(s, node).reasons, r)
    ensures a.reasons == [] <==> Fits(s, node)
    ensures forall c :: c in a.categories <==> RefusedFor(s, node, c)
  {
    FitsExactly(s, node, used);
    hide Fits, RefusedFor, Refuses, VolumesOf;
    if a.reasons != [] {
      assert a.reasons[0] in a.reasons;
    }
    forall c ensures c in a.categories <==> RefusedFor(s, node, c) {
      RefusalsByCategory(s, node, used, c);
    }
  }

  method AssessAll(s: Situation) returns (assessments: seq<Assessment>, feasible: nat)
    ensures |assessments| == |s.nodes|
    ensures forall k :: 0 <= k < |s.nodes| ==> Assessed(s, s.nodes[k], assessments[k])
    ensures feasible == FitCount(s, s.nodes)
  {
    hide Fits, RefusedFor, Labelled, Refuses, NodeUnknowns, InUse;
    var table := AssignedRequests(if !s.allPodsKnown || |s.allPods| == 0 then s.pods else s.allPods);
    assessments, feasible := [], 0;
    for i := 0 to |s.nodes|
      invariant |assessments| == i && feasible == FitCount(s, s.nodes[..i])
      invariant forall k :: 0 <= k < i ==> Assessed(s, s.nodes[k], assessments[k])
    {
      PrefixStep(s.nodes, i);
      var node := s.nodes[i];
      var volumes := if s.volumesKnown then s.helpers.volumes(s.pod, node) else Volumes([], []);
      var used := UsedOn(table, node.name);
      var assessment := AssessNode(s.helpers, s.pod, node, used, volumes.reasons);
      AssessmentMeans(s, node, used, assessment);
      assessment := assessment.(unknowns := assessment.unknowns + UnknownsFrom(volumes.unknowns));
      if |assessment.reasons| == 0 {
        feasible := feasible + 1;
      }
      assessments := assessments + [assessment];
    }
    assert s.nodes[..|s.nodes|] == s.nodes;
  }

  method CollectUnknowns(s: Situation, assessments: seq<Assessment>) returns (unknowns: seq<Unknown>)
    requires |assessments| == |s.nodes|
    requires forall k :: 0 <= k < |s.nodes| ==> assessments[k].unknowns == UnknownsOn(s, s.nodes[k])
    ensures unknowns == AllUnknowns(s)
  {
    hide UnknownsOn, Map;
    unknowns := Map(text => Unsupported(text), s.helpers.unsupported(s.pod));
    unknowns := unknowns + if s.allPodsKnown then [] else [UsageIsPartial];
    unknowns := unknowns + if s.pod.usesVolumes && !s.volumesKnown then [VolumesUnread] else [];
    assert unknowns == PodUnknowns(s);
    unknowns := AppendUnknowns(s, unknowns, assessments);
  }

  method AppendUnknowns(s: Situation, before: seq<Unknown>, assessments: seq<Assessment>) returns (unknowns: seq<Unknown>)
    requires |assessments| == |s.nodes|
    requires forall k :: 0 <= k < |s.nodes| ==> assessments[k].unknowns == UnknownsOn(s, s.nodes[k])
    ensures unknowns == before + UnknownsOnAll(s, s.nodes)
  {
    hide UnknownsOn;
    unknowns := before;
    for i := 0 to |assessments|
      invariant unknowns == before + UnknownsOnAll(s, s.nodes[..i])
    {
      PrefixStep(s.nodes, i);
      unknowns := unknowns + assessments[i].unknowns;
    }
    assert s.nodes[..|s.nodes|] == s.nodes;
  }

  lemma {:induction false} CountsFits(s: Situation, nodes: seq<Node>)
    ensures FitCount(s, nodes) == 0 <==> forall node :: node in nodes ==> !Fits(s, node)
  {
    if nodes != [] {
      hide Fits;
      var n := |nodes| - 1;
      CountsFits(s, nodes[..n]);
      assert nodes == nodes[..n] + [nodes[n]];
    }
  }

  lemma CategoriesEverywhere(s: Situation, assessments: seq<Assessment>, c: Category)
    requires |assessments| == |s.nodes|
    requires forall k :: 0 <= k < |s.nodes| ==> Assessed(s, s.nodes[k], assessments[k])
    ensures EveryHas(assessments, c) <==> RefusedEverywhere(s, c)
  {
  }

  /** The verdict on a Pod that has waited for a node. */
  method Judge(s: Situation) returns (v: Verdict)
    ensures v.severity == (if IssueOf(s) then Issue else Warning) && v.confidence == if IssueOf(s) then 95 else 75
    ensures CodeFits(s, v.code)
    ensures v.feasible == FitCount(s, s.nodes) && v.unknowns == AllUnknowns(s)
  {
    var assessments, feasible := AssessAll(s);
    var unknowns := CollectUnknowns(s, assessments);
    CountsFits(s, s.nodes);
    forall c ensures EveryHas(assessments, c) <==> RefusedEverywhere(s, c) {
      CategoriesEverywhere(s, assessments, c);
    }
    hide Fits, RefusedFor, AllUnknowns, FitCount, RefusedEverywhere, EveryHas;
    var complete := |unknowns| == 0 && |s.nodes| > 0;
    var severity, confidence := Warning, 75;
    if feasible == 0 && complete && s.directEvidence && s.age >= 300 {
      severity, confidence := Issue, 95;
    }
    var code := DominantSchedulingCode(assessments);
    if feasible > 0 {
      code := REPORTED;
    }
    v := Verdict(severity, confidence, code, feasible, unknowns);
  }

  // ---------------------------------------------------------------------------
  // Laws

  /** What Judge promises about the code. */
  ghost predicate CodeFits(s: Situation, code: string)
  {
    && (SomeNodeFits(s) ==> code == REPORTED)
    && (forall k :: 0 <= k < |ORDER| && !SomeNodeFits(s) && FirstRefused(s, k) ==> code == CategoryCode(ORDER[k]))
    && (!SomeNodeFits(s) && (forall c :: !RefusedEverywhere(s, c)) ==> code == NO_NODE)
  }

  /** A category code means that every node was refused for that category; and when
      every node is refused for some category, the code names such a category. */
  lemma CodeMeans(s: Situation, code: string, c: Category)
    requires CodeFits(s, code)
    ensures code == CategoryCode(c) ==> RefusedEverywhere(s, c)
    ensures RefusedEverywhere(s, c) ==> !SomeNodeFits(s) && exists d :: code == CategoryCode(d)
  {
    FirstExists(s);
    if x :| RefusedEverywhere(s, x) {
      NobodyFits(s, x);
      hide Fits, RefusedFor, RefusedEverywhere;
      var k :| 0 <= k < |ORDER| && FirstRefused(s, k);
      assert code == CategoryCode(ORDER[k]);
    }
  }

  lemma NobodyFits(s: Situation, c: Category)
    requires RefusedEverywhere(s, c)
    ensures !SomeNodeFits(s)
  {
  }

  lemma FirstExists(s: Situation)
    ensures (forall c :: !RefusedEverywhere(s, c)) || exists k :: 0 <= k < |ORDER| && FirstRefused(s, k)
  {
    hide RefusedEverywhere;
    if FirstRefused(s, 0) || FirstRefused(s, 1) || FirstRefused(s, 2) || FirstRefused(s, 3) {
    } else {
      forall c ensures !RefusedEverywhere(s, c) {
        Ordered(c);
      }
    }
  }

  lemma {:induction false} InUseSplit(a: seq<Pod>, b: seq<Pod>, node: string, name: string)
    ensures InUse(a + b, node, name) == InUse(a, node, name) + InUse(b, node, name)
  {
    if b == [] {
      assert a + b == a;
    } else {
      var n := |b| - 1;
      InUseSplit(a, b[..n], node, name);
      assert (a + b)[..|a + b| - 1] == a + b[..n];
    }
  }

  /** The order in which Pods are listed does not matter. */
  lemma {:induction false} UsageIgnoresOrder(a: seq<Pod>, b: seq<Pod>, node: string, name: string)
    requires multiset(a) == multiset(b)
    ensures InUse(a, node, name) == InUse(b, node, name)
    decreases |a|
  {
    if a == [] {
      assert |multiset(b)| == 0;
    } else {
      var n, pod := |a| - 1, a[|a| - 1];
      assert a == a[..n] + [pod];
      assert pod in multiset(b);
      var i := Extract(b, pod, node, name);
      WithoutLast(a);
      UsageIgnoresOrder(a[..n], b[..i] + b[i + 1..], node, name);
    }
  }

  lemma WithoutLast(pods: seq<Pod>)
    requires pods != []
    ensures multiset(pods[..|pods| - 1]) == multiset(pods) - multiset{pods[|pods| - 1]}
  {
    assert pods == pods[..|pods| - 1] + [pods[|pods| - 1]];
  }

  /** Taking one Pod out of the list takes out its weight. */
  lemma Extract(pods: seq<Pod>, pod: Pod, node: string, name: string) returns (i: nat)
    requires pod in pods
    ensures i < |pods| && pods[i] == pod
    ensures multiset(pods[..i] + pods[i + 1..]) == multiset(pods) - multiset{pod}
    ensures InUse(pods, node, name) == InUse(pods[..i] + pods[i + 1..], node, name) + Weight(pod, node, name)
  {
    i :| 0 <= i < |pods| && pods[i] == pod;
    var left, right := pods[..i], pods[i + 1..];
    assert pods == left + [pod] + right;
    InUseSplit(left + [pod], right, node, name);
    InUseSplit(left, [pod], node, name);
    InUseSplit(left, right, node, name);
  }

  ghost predicate NonNegative(pods: seq<Pod>)
  {
    forall pod, name :: pod in pods && name in pod.requests ==> pod.requests[name] >= 0
  }

  /** Usage grows with the Pods counted, in whatever order they are listed. */
  lemma {:induction false} UsageGrows(fewer: seq<Pod>, more: seq<Pod>, node: string, name: string)
    requires multiset(fewer) <= multiset(more) && NonNegative(more)
    ensures InUse(fewer, node, name) <= InUse(more, node, name)
    decreases |more|
  {
    if fewer == [] {
      UsageIsNonNegative(more, node, name);
    } else {
      var n, pod := |fewer| - 1, fewer[|fewer| - 1];
      assert fewer == fewer[..n] + [pod];
      assert pod in multiset(fewer);
      var i := Extract(more, pod, node, name);
      WithoutLast(fewer);
      UsageGrows(fewer[..n], more[..i] + more[i + 1..], node, name);
    }
  }

  lemma {:induction false} UsageIsNonNegative(pods: seq<Pod>, node: string, name: string)
    requires NonNegative(pods)
    ensures InUse(pods, node, name) >= 0
  {
    if pods != [] {
      assert pods[|pods| - 1] in pods;
      UsageIsNonNegative(pods[..|pods| - 1], node, name);
    }
  }

  /** A node that fits with more Pods assigned fits with fewer. */
  lemma FewerPodsStillFit(s: Situation, t: Situation, node: Node)
    requires t == s.(pods := t.pods, allPods := t.allPods)
    requires multiset(Counted(s)) <= multiset(Counted(t)) && NonNegative(Counted(t))
    ensures Fits(t, node) ==> Fits(s, node)
  {
    if Fits(t, node) {
      forall c ensures !RefusedFor(s, node, c) {
        assert !RefusedFor(t, node, c);
        if c == ResourceCategory {
          forall name ensures InUse(Counted(s), node.name, name) <= InUse(Counted(t), node.name, name) {
            UsageGrows(Counted(s), Counted(t), node.name, name);
          }
        }
      }
    }
  }

  /** An Issue verdict survives the assignment of further Pods. */
  lemma IssueIsStable(s: Situation, t: Situation)
    requires t == s.(pods := t.pods, allPods := t.allPods)
    requires multiset(Counted(s)) <= multiset(Counted(t)) && NonNegative(Counted(t))
    requires IssueOf(s)
    ensures IssueOf(t)
  {
    forall node | node in s.nodes ensures !Fits(t, node) {
      FewerPodsStillFit(s, t, node);
    }
    UnknownsIgnorePods(s, t, s.nodes);
    hide Fits, UnknownsOnAll;
  }

  lemma {:induction false} UnknownsIgnorePods(s: Situation, t: Situation, nodes: seq<Node>)
    requires t == s.(pods := t.pods, allPods := t.allPods)
    ensures UnknownsOnAll(s, nodes) == UnknownsOnAll(t, nodes)
  {
    if nodes != [] {
      UnknownsIgnorePods(s, t, nodes[..|nodes| - 1]);
    }
  }
}
