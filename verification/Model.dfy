/** Findings, root causes and the diagnostic state. */
module Model {
  import opened Text
  import opened Seqs

  datatype Option<+T> = None | Some(value: T)

  datatype Severity = Issue | Warning | Unavailable | Candidate

  datatype Evidence = Evidence(kind: string, key: string, value: string)

  datatype Acknowledgement = Acknowledgement(ruleId: string, workload: string)

  /** `acknowledged` and `acknowledgement` are only ever set together. */
  datatype Finding = Finding(id: string, code: string, severity: Severity, resource: string, stableKey: string,
                             message: string, confidence: int, evidence: seq<Evidence>,
                             acknowledgement: Option<Acknowledgement>)

  datatype Impact = Impact(resource: string, message: string, relation: string, depth: int,
                           findingIds: seq<string>, path: seq<string>, pathRelations: seq<string>)

  datatype Classification = RelatedCandidate | CauseCandidate | RootCauseClass

  datatype RootCause = RootCause(id: string, confirmed: bool, classification: Classification, confidence: int,
                                 cause: Finding, evidence: seq<Evidence>, direct: seq<Impact>,
                                 propagated: seq<Impact>, related: seq<string>, penalty: int)

  datatype ScopedScore = ScopedScore(score: int, maximum: int)

  function Min(a: int, b: int): int { if a < b then a else b }

  function Max(a: int, b: int): int { if a > b then a else b }

  // ---------------------------------------------------------------------------
  // uniqueStrings

  function Unique(values: seq<string>): seq<string>
  {
    if values == [] then []
    else
      var r := Unique(values[..|values| - 1]);
      var v := TrimSpace(values[|values| - 1]);
      if v == "" || v in r then r else r + [v]
  }

  method UniqueStrings(values: seq<string>) returns (result: seq<string>)
    ensures result == Unique(values)
  {
    var seen: set<string> := {};
    result := [];
    for i := 0 to |values|
      invariant result == Unique(values[..i])
      invariant forall s :: s in seen <==> s in result
    {
      PrefixStep(values, i);
      var value := TrimSpace(values[i]);
      if value == "" || value in seen {
        continue;
      }
      seen := seen + {value};
      result := result + [value];
    }
    assert values[..|values|] == values;
  }

  /** Each trimmed, non-empty value once and nothing else. */
  lemma {:induction false} UniqueMembers(values: seq<string>)
    ensures forall s :: s in Unique(values) <==> s != "" && exists i :: 0 <= i < |values| && TrimSpace(values[i]) == s
    ensures forall i, j :: 0 <= i < j < |Unique(values)| ==> Unique(values)[i] != Unique(values)[j]
  {
    if values != [] {
      var n := |values| - 1;
      var init := values[..n];
      UniqueMembers(init);
      forall s ensures s in Unique(values) <==> s != "" && exists i :: 0 <= i < |values| && TrimSpace(values[i]) == s {
        if s in Unique(init) {
          var i :| 0 <= i < n && TrimSpace(init[i]) == s;
          assert TrimSpace(values[i]) == s;
        }
        if i :| 0 <= i < |values| && TrimSpace(values[i]) == s && s != "" {
          if i < n {
            assert TrimSpace(init[i]) == s;
          }
        }
      }
    }
  }

  lemma UniqueKeepsTrimmed(values: seq<string>, s: string)
    requires IsTrimmed(s) && s in values
    ensures s in Unique(values)
  {
  }

  // ---------------------------------------------------------------------------
  // NewRootCause

  function Clamp(confidence: int): int
  {
    Max(0, Min(100, confidence))
  }

  function ImpactResources(impacts: seq<Impact>): set<string>
  {
    set i | i in impacts :: i.resource
  }

  function PenaltyOf(cause: Finding, impacts: seq<Impact>): int
  {
    if cause.severity == Issue then 8 + Min(6, (|ImpactResources(impacts)| + 1) / 2) else 0
  }

  function Classify(cause: Finding, confidence: int): Classification
  {
    if cause.severity == Issue && confidence >= 90 then RootCauseClass
    else if confidence >= 60 then CauseCandidate
    else RelatedCandidate
  }

  function NewRoot(id: string, cause: Finding, confidence: int, evidence: seq<Evidence>, direct: seq<Impact>,
                   propagated: seq<Impact>, related: seq<string>): RootCause
  {
    var c := Clamp(confidence);
    RootCause(id, cause.severity == Issue && c >= 90, Classify(cause, c), c, cause, evidence, direct, propagated,
              Unique([cause.id] + related), PenaltyOf(cause, direct + propagated))
  }

  method CollectResources(impacts: seq<Impact>) returns (unique: set<string>)
    ensures unique == ImpactResources(impacts)
  {
    unique := {};
    for i := 0 to |impacts|
      invariant unique == ImpactResources(impacts[..i])
    {
      assert impacts[..i + 1] == impacts[..i] + [impacts[i]];
      unique := unique + {impacts[i].resource};
    }
    assert impacts[..|impacts|] == impacts;
  }

  method NewRootCause(id: string, cause: Finding, confidence: int, evidence: seq<Evidence>, direct: seq<Impact>,
                      propagated: seq<Impact>, related: seq<string>) returns (root: RootCause)
    ensures root == NewRoot(id, cause, confidence, evidence, direct, propagated, related)
  {
    hide Unique, ImpactResources;
    var c := confidence;
    if c < 0 {
      c := 0;
    }
    if c > 100 {
      c := 100;
    }
    var classification := RelatedCandidate;
    var confirmed := cause.severity == Issue && c >= 90;
    if confirmed {
      classification := RootCauseClass;
    } else if c >= 60 {
      classification := CauseCandidate;
    }
    var ids := UniqueStrings([cause.id] + related);
    var penalty := 0;
    if cause.severity == Issue {
      var unique := CollectResources(direct + propagated);
      penalty := 8 + Min(6, (|unique| + 1) / 2);
    }
    root := RootCause(id, confirmed, classification, c, cause, evidence, direct, propagated, ids, penalty);
  }

  // ---------------------------------------------------------------------------
  // Health and exit policy

  function Grouped(roots: seq<RootCause>): set<string>
  {
    set r, id | r in roots && r.cause.severity == Issue && id in r.related :: id
  }

  function SumPenalties(roots: seq<RootCause>): int
  {
    if roots == [] then 0 else SumPenalties(roots[..|roots| - 1]) + roots[|roots| - 1].penalty
  }

  function UngroupedIssues(findings: seq<Finding>, roots: seq<RootCause>): seq<Finding>
  {
    var grouped := Grouped(roots);
    Filter((f: Finding) => f.severity == Issue && f.id !in grouped, findings)
  }

  function HealthOf(scoped: Option<ScopedScore>, findings: seq<Finding>, roots: seq<RootCause>): int
  {
    if scoped.Some? && scoped.value.maximum > 0 then
      Max(0, Min(100, scoped.value.score * 100 / scoped.value.maximum))
    else
      Max(0, 100 - SumPenalties(roots) - 8 * |UngroupedIssues(findings, roots)|)
  }

  function FailingSeverities(failOn: string): set<Severity>
  {
    if failOn == "warning" then {Issue, Warning}
    else if failOn == "unavailable" then {Issue, Warning, Unavailable}
    else if failOn == "any" then {Issue, Warning, Unavailable, Candidate}
    else if failOn == "none" then {}
    else {Issue}
  }

  function Failing(findings: seq<Finding>, failOn: string): seq<Finding>
  {
    var included := FailingSeverities(failOn);
    Filter((f: Finding) => f.acknowledgement.None? && f.severity in included, findings)
  }

  class State {
    var findings: seq<Finding>
    var rootCauses: seq<RootCause>
    var scopedScore: Option<ScopedScore>
    var seen: set<string>

    constructor ()
      ensures findings == [] && rootCauses == [] && scopedScore == None && seen == {}
    {
      findings, rootCauses, scopedScore, seen := [], [], None, {};
    }

    /** Every finding that was added with an ID is remembered under it. */
    ghost predicate Valid()
      reads this
    {
      && (forall i :: 0 <= i < |findings| && findings[i].id != "" ==> findings[i].id in seen)
      && DistinctIds(findings)
    }

    /** `fingerprint` is the hash an ID-less finding is remembered under. */
    method Add(f: Finding, fingerprint: string)
      requires Valid()
      modifies this
      ensures Valid()
      ensures var key := if f.id == "" then fingerprint else f.id;
              if key in old(seen)
              then findings == old(findings) && rootCauses == old(rootCauses) && seen == old(seen)
              else findings == old(findings) + [f] && rootCauses == [] && seen == old(seen) + {key}
      ensures scopedScore == old(scopedScore)
    {
      var key := f.id;
      if key == "" {
        key := fingerprint;
      }
      if key in seen {
        return;
      }
      seen := seen + {key};
      findings := findings + [f];
      rootCauses := [];
    }

    method SetRootCauses(values: seq<RootCause>)
      modifies this`rootCauses
      ensures rootCauses == values
    {
      rootCauses := values;
    }

    /** The first finding with the ID is acknowledged; the others are untouched. */
    method Acknowledge(id: string, acknowledgement: Acknowledgement) returns (found: bool)
      modifies this`findings
      ensures found <==> exists i :: 0 <= i < |old(findings)| && old(findings)[i].id == id
      ensures findings == AcknowledgeFirst(old(findings), id, acknowledgement)
    {
      hide AcknowledgeFirst;
      for i := 0 to |findings|
        invariant findings == old(findings) && forall k :: 0 <= k < i ==> findings[k].id != id
      {
        if findings[i].id != id {
          continue;
        }
        AcknowledgedAt(findings, i, id, acknowledgement);
        findings := findings[i := findings[i].(acknowledgement := Some(acknowledgement))];
        return true;
      }
      AcknowledgedAt(findings, |findings|, id, acknowledgement);
      return false;
    }

    method Health() returns (health: int)
      ensures health == HealthOf(scopedScore, findings, rootCauses)
    {
      if scopedScore.Some? && scopedScore.value.maximum > 0 {
        return Max(0, Min(100, scopedScore.value.score * 100 / scopedScore.value.maximum));
      }
      if |rootCauses| == 0 {
        var issues := 0;
        for i := 0 to |findings|
          invariant issues == |UngroupedIssues(findings[..i], rootCauses)|
        {
          PrefixStep(findings, i);
          if findings[i].severity == Issue {
            issues := issues + 1;
          }
        }
        assert findings[..|findings|] == findings;
        return Max(0, 100 - issues * 8);
      }
      var grouped: set<string> := {};
      var penalty := 0;
      for i := 0 to |rootCauses|
        invariant penalty == SumPenalties(rootCauses[..i])
        invariant grouped == Grouped(rootCauses[..i])
      {
        PrefixStep(rootCauses, i);
        assert rootCauses[..i + 1] == rootCauses[..i] + [rootCauses[i]];
        var root := rootCauses[i];
        penalty := penalty + root.penalty;
        if root.cause.severity == Issue {
          grouped := grouped + set id | id in root.related;
        }
      }
      assert rootCauses[..|rootCauses|] == rootCauses;
      ghost var roots := penalty;
      for i := 0 to |findings|
        invariant penalty == roots + 8 * |UngroupedIssues(findings[..i], rootCauses)|
      {
        PrefixStep(findings, i);
        if findings[i].severity != Issue {
          continue;
        }
        if findings[i].id !in grouped {
          penalty := penalty + 8;
        }
      }
      assert findings[..|findings|] == findings;
      return Max(0, 100 - penalty);
    }

    method ShouldFail(failOn: string, maxIssues: Option<int>) returns (fail: bool)
      ensures fail <==> |Failing(findings, failOn)| > if maxIssues.Some? then maxIssues.value else 0
    {
      var included := FailingSeverities(failOn);
      var count := 0;
      for i := 0 to |findings|
        invariant count == |Failing(findings[..i], failOn)|
      {
        PrefixStep(findings, i);
        if findings[i].acknowledgement.None? && findings[i].severity in included {
          count := count + 1;
        }
      }
      assert findings[..|findings|] == findings;
      if maxIssues.Some? {
        return count > maxIssues.value;
      }
      return count > 0;
    }
  }

  ghost predicate DistinctIds(findings: seq<Finding>)
  {
    forall i, j :: 0 <= i < j < |findings| && findings[i].id != "" ==> findings[i].id != findings[j].id
  }

  function AcknowledgeFirst(findings: seq<Finding>, id: string, a: Acknowledgement): seq<Finding>
  {
    if findings == [] then []
    else if findings[0].id == id then [findings[0].(acknowledgement := Some(a))] + findings[1..]
    else [findings[0]] + AcknowledgeFirst(findings[1..], id, a)
  }

  lemma {:induction false} AcknowledgedAt(findings: seq<Finding>, i: nat, id: string, a: Acknowledgement)
    requires i <= |findings| && (forall k :: 0 <= k < i ==> findings[k].id != id)
    requires i < |findings| ==> findings[i].id == id
    ensures AcknowledgeFirst(findings, id, a)
            == if i == |findings| then findings else findings[i := findings[i].(acknowledgement := Some(a))]
  {
    if i > 0 {
      AcknowledgedAt(findings[1..], i - 1, id, a);
    }
  }

  lemma {:induction false} AcknowledgedFilter(p: Finding -> bool, findings: seq<Finding>, id: string, a: Acknowledgement)
    requires forall f: Finding :: p(f) ==> f.acknowledgement.None?
    ensures |Filter(p, AcknowledgeFirst(findings, id, a))| <= |Filter(p, findings)|
  {
    if findings != [] {
      FilterHead(p, findings);
      FilterHead(p, AcknowledgeFirst(findings, id, a));
      if findings[0].id == id {
        assert AcknowledgeFirst(findings, id, a)[1..] == findings[1..];
      } else {
        assert AcknowledgeFirst(findings, id, a)[1..] == AcknowledgeFirst(findings[1..], id, a);
        AcknowledgedFilter(p, findings[1..], id, a);
      }
    }
  }

  lemma {:induction false} FilterHead<T>(p: T -> bool, s: seq<T>)
    requires s != []
    ensures Filter(p, s) == (if p(s[0]) then [s[0]] else []) + Filter(p, s[1..])
  {
    if |s| > 1 {
      FilterHead(p, s[..|s| - 1]);
      assert s[..|s| - 1][1..] == s[1..][..|s| - 2];
    }
  }

  /** Acknowledging a finding can only turn a failing run into a passing one. */
  lemma AcknowledgeNeverFails(findings: seq<Finding>, id: string, a: Acknowledgement, failOn: string)
    ensures |Failing(AcknowledgeFirst(findings, id, a), failOn)| <= |Failing(findings, failOn)|
  {
    var included := FailingSeverities(failOn);
    AcknowledgedFilter((f: Finding) => f.acknowledgement.None? && f.severity in included, findings, id, a);
  }
}
