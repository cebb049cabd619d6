/** Correlate: from flat findings to root causes with their blast radius. */
module Correlation {
  import opened Text
  import opened Sorting
  import opened Seqs
  import opened Graph
  import opened Model

  datatype Assessment = SymptomOnly | LogRecord | WeakCode | DirectlyChecked | Unconfirmed

  /** What correlation reads besides the findings: the dependency graph, the
      message of a resource whose own status is degraded (empty when it is not),
      the root ID hash of code, resource and stable key, and fixed texts. */
  datatype World = World(graph: Forward, degraded: string -> string,
                         rootId: (string, string, string) -> string, text: Assessment -> string)

  datatype Index = Index(byResource: map<string, seq<Finding>>, byId: map<string, Finding>)

  // ---------------------------------------------------------------------------
  // Codes

  predicate IsLog(code: string) { HasPrefix(code, "K8S.LOG.") }

  predicate StrongRootCode(code: string)
  {
    code in {
      "K8S.DEPENDENCY.MISSING_OBJECT", "K8S.DEPENDENCY.MISSING_KEY",
      "K8S.NODE.CONDITION", "K8S.PVC.NOT_BOUND", "K8S.PVC.LOST", "K8S.PVC.STORAGE_CLASS_NOT_FOUND",
      "K8S.PV.FAILED",
      "K8S.TLS.CERT_EXPIRED", "K8S.TLS.CERT_INVALID", "K8S.TLS.KEY_PAIR_INVALID", "K8S.CONTROL_PLANE.READYZ_FAILED",
      "K8S.INGRESS.MISSING_REFERENCE", "K8S.WEBHOOK.MISSING_SERVICE",
      "K8S.SERVICE.TARGET_PORT_UNRESOLVED", "K8S.PROBE.PORT_UNRESOLVED",
      "K8S.SCHEDULING.NO_AVAILABLE_NODE", "K8S.SCHEDULING.NODE_AFFINITY_MISMATCH",
      "K8S.SCHEDULING.UNTOLERATED_TAINT", "K8S.SCHEDULING.INSUFFICIENT_RESOURCES"
    }
  }

  predicate SymptomCode(code: string)
  {
    || code in {
         "K8S.POD.ABNORMAL_STATE", "K8S.POD.PENDING_STATE", "K8S.POD.NOT_READY", "K8S.POD.FAILED_PHASE",
         "K8S.WORKLOAD.PROGRESS_DEADLINE_EXCEEDED", "K8S.WORKLOAD.REPLICA_FAILURE",
         "K8S.WORKLOAD.REPLICAS_UNAVAILABLE", "K8S.SERVICE.NO_READY_ENDPOINT", "K8S.SERVICE.TERMINATING_ENDPOINTS_ONLY"
       }
    || HasPrefix(code, "K8S.CONNECT.")
  }

  predicate RootEligible(f: Finding)
  {
    || (IsLog(f.code) && (f.severity == Warning || f.severity == Candidate))
    || f.severity == Issue
    || (f.severity == Warning &&
        (|| HasPrefix(f.code, "K8S.SCHEDULING.") || HasPrefix(f.code, "K8S.NODE.") || HasPrefix(f.code, "K8S.PVC.")
         || HasPrefix(f.code, "K8S.WORKLOAD.ROLLOUT") || HasPrefix(f.code, "K8S.WORKLOAD.REPLICA_FAILURE")
         || HasPrefix(f.code, "K8S.POD.SANDBOX") || HasPrefix(f.code, "K8S.PROBE.") || HasPrefix(f.code, "K8S.CONNECT.")))
  }

  function RootPriority(f: Finding): int
  {
    if HasPrefix(f.code, "K8S.DEPENDENCY.") then 0 else if StrongRootCode(f.code) then 1 else 2
  }

  function RootAssessment(f: Finding): (int, Assessment)
  {
    if SymptomCode(f.code) then (Min(f.confidence, 70), SymptomOnly)
    else if IsLog(f.code) then (Min(f.confidence, 85), LogRecord)
    else if !StrongRootCode(f.code) then (Min(f.confidence, 85), WeakCode)
    else if f.severity == Issue && f.confidence >= 90 then (f.confidence, DirectlyChecked)
    else (f.confidence, Unconfirmed)
  }

  // ---------------------------------------------------------------------------
  // Orders

  predicate IdLess(a: Finding, b: Finding) { Less(a.id, b.id) }

  predicate CandidateLess(a: Finding, b: Finding)
  {
    if RootPriority(a) != RootPriority(b) then RootPriority(a) < RootPriority(b)
    else if a.confidence != b.confidence then a.confidence > b.confidence
    else Less(a.id, b.id)
  }

  predicate RootLess(a: RootCause, b: RootCause)
  {
    if a.confirmed != b.confirmed then a.confirmed
    else if a.confidence != b.confidence then a.confidence > b.confidence
    else if a.cause.resource != b.cause.resource then Less(a.cause.resource, b.cause.resource)
    else Less(a.id, b.id)
  }

  // ---------------------------------------------------------------------------
  // Index and candidates

  function On(findings: seq<Finding>, resource: string): seq<Finding>
  {
    Sort(IdLess, Filter((f: Finding) => f.resource == resource, findings))
  }

  function ResourceNames(findings: seq<Finding>): set<string>
  {
    set f | f in findings && f.resource != "" :: f.resource
  }

  function IndexOf(findings: seq<Finding>): Index
  {
    Index(map r | r in ResourceNames(findings) :: On(findings, r), ById(findings))
  }

  function ById(findings: seq<Finding>): map<string, Finding>
  {
    if findings == [] then map[]
    else ById(findings[..|findings| - 1])[findings[|findings| - 1].id := findings[|findings| - 1]]
  }

  function At(ix: Index, resource: string): seq<Finding>
  {
    if resource in ix.byResource then ix.byResource[resource] else []
  }

  /** A log finding is only evidence where a non-log finding can be the root. */
  predicate OnlyEvidence(ix: Index, f: Finding)
  {
    IsLog(f.code) && exists other :: other in At(ix, f.resource) && !IsLog(other.code) && RootEligible(other)
  }

  function Candidates(ix: Index, findings: seq<Finding>): seq<Finding>
  {
    Filter((f: Finding) => RootEligible(f) && !OnlyEvidence(ix, f), findings)
  }

  // ---------------------------------------------------------------------------
  // One root

  datatype Assembly = Assembly(direct: seq<Impact>, propagated: seq<Impact>, evidence: seq<Evidence>, related: seq<string>)

  function RequiredKey(cause: Finding): string
  {
    var parts := Split(cause.stableKey, '/');
    if cause.code == "K8S.DEPENDENCY.MISSING_KEY" && |parts| > 1 then parts[|parts| - 1] else ""
  }

  function LogEvidence(evidence: seq<Evidence>, f: Finding): seq<Evidence>
  {
    evidence + [Evidence("log-signature", f.code, f.message)]
    + Filter((e: Evidence) => e.kind == "log" && e.key == "match", f.evidence)
  }

  function Support(cause: Finding, acc: Assembly, f: Finding): Assembly
  {
    if f.id == cause.id || !IsLog(f.code) then acc
    else acc.(evidence := LogEvidence(acc.evidence, f), related := acc.related + [f.id])
  }

  function SupportAll(cause: Finding, acc: Assembly, fs: seq<Finding>): Assembly
  {
    if fs == [] then acc else Support(cause, SupportAll(cause, acc, fs[..|fs| - 1]), fs[|fs| - 1])
  }

  function Degraded(ix: Index, resource: string): seq<Finding>
  {
    Filter((f: Finding) => f.severity == Issue || f.severity == Warning, At(ix, resource))
  }

  function ImpactMessage(w: World, ix: Index, resource: string): string
  {
    var values := Degraded(ix, resource);
    if |values| > 0 then values[0].message else w.degraded(resource)
  }

  function Absorb(acc: Assembly, f: Finding): Assembly
  {
    acc.(evidence := if IsLog(f.code) then LogEvidence(acc.evidence, f) else acc.evidence, related := acc.related + [f.id])
  }

  function AbsorbAll(acc: Assembly, fs: seq<Finding>): Assembly
  {
    if fs == [] then acc else Absorb(AbsorbAll(acc, fs[..|fs| - 1]), fs[|fs| - 1])
  }

  function Ids(fs: seq<Finding>): seq<string>
  {
    seq(|fs|, i requires 0 <= i < |fs| => fs[i].id)
  }

  function ImpactOf(w: World, ix: Index, path: GraphPath): Impact
  {
    Impact(path.resource, ImpactMessage(w, ix, path.resource),
           if |path.relations| > 0 then path.relations[|path.relations| - 1] else "",
           |path.path| - 1, Ids(Degraded(ix, path.resource)), path.path, path.relations)
  }

  function AddImpact(w: World, ix: Index, acc: Assembly, path: GraphPath): Assembly
  {
    if ImpactMessage(w, ix, path.resource) == "" then acc
    else
      var absorbed := AbsorbAll(acc, Degraded(ix, path.resource));
      var impact := ImpactOf(w, ix, path);
      if impact.depth == 1 then absorbed.(direct := absorbed.direct + [impact])
      else absorbed.(propagated := absorbed.propagated + [impact])
  }

  function AddImpacts(w: World, ix: Index, acc: Assembly, paths: seq<GraphPath>): Assembly
  {
    if paths == [] then acc else AddImpact(w, ix, AddImpacts(w, ix, acc, paths[..|paths| - 1]), paths[|paths| - 1])
  }

  function Opening(w: World, cause: Finding): Assembly
  {
    Assembly([], [], cause.evidence + [Evidence("assessment", "classification", w.text(RootAssessment(cause).1))], [])
  }

  function Assemble(w: World, ix: Index, cause: Finding): Assembly
  {
    AddImpacts(w, ix, SupportAll(cause, Opening(w, cause), At(ix, cause.resource)),
               DescendantsOf(w.graph, cause.resource, RequiredKey(cause)))
  }

  function RootOf(w: World, ix: Index, cause: Finding): RootCause
  {
    var a := Assemble(w, ix, cause);
    NewRoot(w.rootId(cause.code, cause.resource, cause.stableKey), cause, RootAssessment(cause).0,
            a.evidence, a.direct, a.propagated, a.related)
  }

  // ---------------------------------------------------------------------------
  // Claiming

  /** Only a confirmed cause absorbs other findings, and only Issue symptoms. */
  predicate Claims(ix: Index, root: RootCause, id: string)
  {
    && id in root.related && id in ix.byId && ix.byId[id].severity == Issue
    && (id == root.cause.id || (root.confirmed && SymptomCode(ix.byId[id].code)))
  }

  function ClaimedBy(ix: Index, root: RootCause): set<string>
  {
    set id | id in root.related && Claims(ix, root, id)
  }

  datatype Progress = Progress(claimed: set<string>, roots: seq<RootCause>)

  function Take(w: World, ix: Index, p: Progress, cause: Finding): Progress
  {
    if cause.id in p.claimed then p
    else
      var root := RootOf(w, ix, cause);
      Progress(p.claimed + ClaimedBy(ix, root), p.roots + [root])
  }

  function Process(w: World, ix: Index, causes: seq<Finding>): Progress
  {
    if causes == [] then Progress({}, [])
    else Take(w, ix, Process(w, ix, causes[..|causes| - 1]), causes[|causes| - 1])
  }

  function Ordered(findings: seq<Finding>): seq<Finding>
  {
    Sort(CandidateLess, Candidates(IndexOf(findings), findings))
  }

  function CorrelateOf(w: World, findings: seq<Finding>): seq<RootCause>
  {
    Sort(RootLess, Process(w, IndexOf(findings), Ordered(findings)).roots)
  }

  // ---------------------------------------------------------------------------
  // The program

  ghost predicate GroupedBy(byResource: map<string, seq<Finding>>, findings: seq<Finding>)
  {
    && byResource.Keys == ResourceNames(findings)
    && forall r :: r in byResource ==> byResource[r] == Filter((f: Finding) => f.resource == r, findings)
  }

  lemma GroupStep(byResource: map<string, seq<Finding>>, findings: seq<Finding>, finding: Finding)
    requires GroupedBy(byResource, findings)
    ensures var r := finding.resource;
            GroupedBy(if r == "" then byResource
                      else byResource[r := (if r in byResource then byResource[r] else []) + [finding]],
                      findings + [finding])
  {
    assert (findings + [finding])[..|findings|] == findings;
    if finding.resource != "" && finding.resource !in byResource {
      NothingThere(findings, finding.resource);
    }
  }

  method BuildIndex(findings: seq<Finding>) returns (ix: Index)
    ensures ix == IndexOf(findings)
  {
    var byResource: map<string, seq<Finding>> := map[];
    var byId: map<string, Finding> := map[];
    for i := 0 to |findings|
      invariant byId == ById(findings[..i]) && GroupedBy(byResource, findings[..i])
    {
      hide GroupedBy;
      PrefixStep(findings, i);
      assert findings[..i + 1] == findings[..i] + [findings[i]];
      var finding := findings[i];
      GroupStep(byResource, findings[..i], finding);
      byId := byId[finding.id := finding];
      if finding.resource != "" {
        var before := if finding.resource in byResource then byResource[finding.resource] else [];
        byResource := byResource[finding.resource := before + [finding]];
      }
    }
    assert findings[..|findings|] == findings;
    ix := Index(map r | r in byResource :: Sort(IdLess, byResource[r]), byId);
  }

  lemma NothingThere(findings: seq<Finding>, resource: string)
    requires resource != "" && resource !in ResourceNames(findings)
    ensures Filter((f: Finding) => f.resource == resource, findings) == []
  {
    FilterNone((f: Finding) => f.resource == resource, findings);
  }

  method SelectCandidates(ix: Index, findings: seq<Finding>) returns (candidates: seq<Finding>)
    ensures candidates == Candidates(ix, findings)
  {
    candidates := [];
    for i := 0 to |findings|
      invariant candidates == Candidates(ix, findings[..i])
    {
      PrefixStep(findings, i);
      var finding := findings[i];
      if RootEligible(finding) {
        if IsLog(finding.code) {
          var hasRoot := false;
          var others := At(ix, finding.resource);
          for j := 0 to |others|
            invariant !hasRoot
            invariant forall k :: 0 <= k < j ==> IsLog(others[k].code) || !RootEligible(others[k])
          {
            if !IsLog(others[j].code) && RootEligible(others[j]) {
              hasRoot := true;
              assert others[j] in At(ix, finding.resource);
              break;
            }
          }
          if hasRoot {
            continue;
          }
        }
        candidates := candidates + [finding];
      }
    }
    assert findings[..|findings|] == findings;
  }

  method SupportingLogs(cause: Finding, opening: Assembly, here: seq<Finding>) returns (acc: Assembly)
    ensures acc == SupportAll(cause, opening, here)
  {
    acc := opening;
    for i := 0 to |here|
      invariant acc == SupportAll(cause, opening, here[..i])
    {
      PrefixStep(here, i);
      if here[i].id == cause.id || !IsLog(here[i].code) {
        continue;
      }
      acc := acc.(evidence := LogEvidence(acc.evidence, here[i]), related := acc.related + [here[i].id]);
    }
    assert here[..|here|] == here;
  }

  method AddFindings(before: Assembly, values: seq<Finding>) returns (acc: Assembly, findingIds: seq<string>)
    ensures acc == AbsorbAll(before, values) && findingIds == Ids(values)
  {
    acc, findingIds := before, [];
    for j := 0 to |values|
      invariant acc == AbsorbAll(before, values[..j])
      invariant findingIds == Ids(values[..j])
    {
      PrefixStep(values, j);
      findingIds := findingIds + [values[j].id];
      acc := acc.(related := acc.related + [values[j].id]);
      if IsLog(values[j].code) {
        acc := acc.(evidence := LogEvidence(acc.evidence, values[j]));
      }
    }
    assert values[..|values|] == values;
  }

  method AddPath(w: World, ix: Index, before: Assembly, path: GraphPath) returns (acc: Assembly)
    ensures acc == AddImpact(w, ix, before, path)
  {
    hide Degraded, AbsorbAll, Ids;
    acc := before;
    var values := Degraded(ix, path.resource);
    var message := if |values| > 0 then values[0].message else w.degraded(path.resource);
    if message == "" {
      return;
    }
    var findingIds: seq<string>;
    acc, findingIds := AddFindings(acc, values);
    var relation := if |path.relations| > 0 then path.relations[|path.relations| - 1] else "";
    var impact := Impact(path.resource, message, relation, |path.path| - 1, findingIds, path.path, path.relations);
    if impact.depth == 1 {
      acc := acc.(direct := acc.direct + [impact]);
    } else {
      acc := acc.(propagated := acc.propagated + [impact]);
    }
  }

  method AssembleRoot(graph: DependencyGraph, w: World, ix: Index, cause: Finding) returns (root: RootCause)
    requires w.graph == graph.forward
    ensures root == RootOf(w, ix, cause)
  {
    var paths := graph.Descendants(cause.resource, RequiredKey(cause));
    var acc := SupportingLogs(cause, Opening(w, cause), At(ix, cause.resource));
    ghost var supported := acc;
    for i := 0 to |paths|
      invariant acc == AddImpacts(w, ix, supported, paths[..i])
    {
      PrefixStep(paths, i);
      acc := AddPath(w, ix, acc, paths[i]);
    }
    assert paths[..|paths|] == paths;
    root := NewRootCause(w.rootId(cause.code, cause.resource, cause.stableKey), cause, RootAssessment(cause).0,
                         acc.evidence, acc.direct, acc.propagated, acc.related);
  }

  method Claim(ix: Index, root: RootCause, before: set<string>) returns (claimed: set<string>)
    ensures claimed == before + ClaimedBy(ix, root)
  {
    claimed := before;
    for j := 0 to |root.related|
      invariant claimed == before + set id | id in root.related[..j] && Claims(ix, root, id)
    {
      assert root.related[..j + 1] == root.related[..j] + [root.related[j]];
      var id := root.related[j];
      if id !in ix.byId || ix.byId[id].severity != Issue {
        continue;
      }
      if id == root.cause.id || (root.confirmed && SymptomCode(ix.byId[id].code)) {
        claimed := claimed + {id};
      }
    }
    assert root.related[..|root.related|] == root.related;
  }

  method Correlate(graph: DependencyGraph, state: State, w: World)
    requires w.graph == graph.forward
    modifies state`rootCauses
    ensures state.rootCauses == CorrelateOf(w, state.findings)
  {
    var ix := BuildIndex(state.findings);
    var candidates := SelectCandidates(ix, state.findings);
    candidates := Sort(CandidateLess, candidates);
    var claimed: set<string> := {};
    var roots := [];
    for i := 0 to |candidates|
      invariant Progress(claimed, roots) == Process(w, ix, candidates[..i])
    {
      PrefixStep(candidates, i);
      var cause := candidates[i];
      if cause.id in claimed {
        continue;
      }
      var root := AssembleRoot(graph, w, ix, cause);
      roots := roots + [root];
      claimed := Claim(ix, root, claimed);
    }
    assert candidates[..|candidates|] == candidates;
    state.SetRootCauses(Sort(RootLess, roots));
  }
}
