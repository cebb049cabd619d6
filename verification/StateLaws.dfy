/** Health and exit decision, counted on the findings. */
module StateLaws {
  import opened Seqs
  import opened Model

  /** The positions of the elements with a property. */
  function Positions<T>(p: T -> bool, s: seq<T>): set<int>
  {
    set i | 0 <= i < |s| && p(s[i])
  }

  lemma {:induction false} FilterCounts<T>(p: T -> bool, s: seq<T>)
    ensures |Filter(p, s)| == |Positions(p, s)|
  {
    if s == [] {
      assert Positions(p, s) == {};
    } else {
      var n := |s| - 1;
      FilterCounts(p, s[..n]);
      assert Positions(p, s) == if p(s[n]) then Positions(p, s[..n]) + {n} else Positions(p, s[..n]);
    }
  }

  // ---------------------------------------------------------------------------
  // Exit decision

  /** The severities that a policy counts; any other word means "issue". */
  predicate PolicyCounts(failOn: string, severity: Severity)
  {
    match severity
    case Issue => failOn != "none"
    case Warning => failOn == "warning" || failOn == "unavailable" || failOn == "any"
    case Unavailable => failOn == "unavailable" || failOn == "any"
    case Candidate => failOn == "any"
  }

  function CountedFindings(findings: seq<Finding>, failOn: string): set<int>
  {
    set i | 0 <= i < |findings| && findings[i].acknowledgement.None? && PolicyCounts(failOn, findings[i].severity)
  }

  /** A run fails when more unacknowledged findings of the policy's severities are
      left than the allowance, which is zero unless given. */
  lemma FailingAre(findings: seq<Finding>, failOn: string)
    ensures |Failing(findings, failOn)| == |CountedFindings(findings, failOn)|
  {
    var included := FailingSeverities(failOn);
    forall x: Severity ensures x in included <==> PolicyCounts(failOn, x) {
      PolicyWords(failOn, x);
    }
    var p := (f: Finding) => f.acknowledgement.None? && f.severity in included;
    hide FailingSeverities, PolicyCounts;
    FilterCounts(p, findings);
    assert Failing(findings, failOn) == Filter(p, findings);
    assert CountedFindings(findings, failOn) == Positions(p, findings);
  }

  lemma PolicyWords(failOn: string, severity: Severity)
    ensures severity in FailingSeverities(failOn) <==> PolicyCounts(failOn, severity)
  {
  }

  // ---------------------------------------------------------------------------
  // Health

  /** The Issues that no root caused by an Issue lists. */
  function ChargedAlone(findings: seq<Finding>, roots: seq<RootCause>): set<int>
  {
    set i | && 0 <= i < |findings| && findings[i].severity == Issue
            && forall k :: 0 <= k < |roots| && roots[k].cause.severity == Issue ==> findings[i].id !in roots[k].related
  }

  lemma GroupedIds(roots: seq<RootCause>, id: string)
    ensures id in Grouped(roots) <==> exists k :: 0 <= k < |roots| && roots[k].cause.severity == Issue && id in roots[k].related
  {
    if r :| r in roots && r.cause.severity == Issue && id in r.related {
      var k :| 0 <= k < |roots| && roots[k] == r;
    }
    if k :| 0 <= k < |roots| && roots[k].cause.severity == Issue && id in roots[k].related {
      assert roots[k] in roots;
    }
  }

  lemma UngroupedAre(findings: seq<Finding>, roots: seq<RootCause>)
    ensures |UngroupedIssues(findings, roots)| == |ChargedAlone(findings, roots)|
  {
    var grouped := Grouped(roots);
    var p := (f: Finding) => f.severity == Issue && f.id !in grouped;
    FilterCounts(p, findings);
    hide Grouped;
    assert UngroupedIssues(findings, roots) == Filter(p, findings);
    forall i | 0 <= i < |findings| ensures i in ChargedAlone(findings, roots) <==> p(findings[i]) {
      GroupedIds(roots, findings[i].id);
    }
    assert ChargedAlone(findings, roots) == Positions(p, findings);
  }

  /** Health is a percentage: of the scoped maximum if there is one, otherwise 100 less
      the root penalties and eight for each Issue that stands alone, never below zero. */
  lemma HealthIs(scoped: Option<ScopedScore>, findings: seq<Finding>, roots: seq<RootCause>)
    requires forall k :: 0 <= k < |roots| ==> roots[k].penalty >= 0
    ensures var h := HealthOf(scoped, findings, roots);
            && 0 <= h <= 100
            && (scoped.Some? && scoped.value.maximum > 0 ==>
                  && (h == 100 <==> scoped.value.score >= scoped.value.maximum)
                  && (0 <= scoped.value.score <= scoped.value.maximum ==>
                        h * scoped.value.maximum <= 100 * scoped.value.score < (h + 1) * scoped.value.maximum))
            && (!(scoped.Some? && scoped.value.maximum > 0) ==>
                  var charge := SumPenalties(roots) + 8 * |ChargedAlone(findings, roots)|;
                  h == if charge > 100 then 0 else 100 - charge)
  {
    UngroupedAre(findings, roots);
    PenaltiesAreCharges(roots);
    hide UngroupedIssues, ChargedAlone;
    if scoped.Some? && scoped.value.maximum > 0 {
      Percentage(scoped.value.score, scoped.value.maximum);
    }
  }

  lemma {:induction false} PenaltiesAreCharges(roots: seq<RootCause>)
    requires forall k :: 0 <= k < |roots| ==> roots[k].penalty >= 0
    ensures SumPenalties(roots) >= 0
  {
    if roots != [] {
      PenaltiesAreCharges(roots[..|roots| - 1]);
    }
  }

  lemma Percentage(score: int, maximum: int)
    requires maximum > 0
    ensures var q := score * 100 / maximum; q * maximum <= 100 * score < (q + 1) * maximum
    ensures score * 100 / maximum >= 100 <==> score >= maximum
    ensures score * 100 / maximum >= 0 <==> score >= 0
  {
    var q := score * 100 / maximum;
    Quotient(score * 100, maximum);
    Between(q, maximum, 100, 100 * score);
    Between(q, maximum, 0, 100 * score);
  }

  lemma Quotient(a: int, b: int)
    requires b > 0
    ensures a / b * b <= a < (a / b + 1) * b
  {
    assert a == a / b * b + a % b;
    assert (a / b + 1) * b == a / b * b + b;
  }

  lemma Between(q: int, b: int, k: int, a: int)
    requires b > 0 && q * b <= a < (q + 1) * b
    ensures q >= k <==> a >= k * b
  {
    if q >= k {
      Scaled(q - k, b);
      assert (q - k) * b == q * b - k * b;
    } else {
      Scaled(k - q - 1, b);
      assert (k - q - 1) * b == k * b - (q + 1) * b;
    }
  }

  lemma Scaled(d: nat, b: int)
    requires b > 0
    ensures d * b >= 0
  {
  }
}
