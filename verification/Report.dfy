/** The difference between two reports, the bridge over unknown samples, and the
    selection of what a webhook is told. */
module Report {
  import opened Text
  import opened Seqs
  import opened Keys
  import opened Model

  /** A finding as it is read back from a report: missing fields are empty.
      `stable` stands for the other compared fields (reason, stable key,
      confidence, acknowledgement); the message is not compared. */
  datatype Record = Record(id: string, code: string, severity: string, section: string, resource: string,
                           ruleId: string, acknowledged: bool, stable: string)

  const NO_RECORD := Record("", "", "", "", "", "", false, "")

  datatype Document = Document(findings: seq<Record>, generatedAt: string)

  datatype Change = Change(before: Record, after: Record)

  datatype Bridge = Bridge(before: Record, after: Record, unknownSamples: nat, lastKnownAt: string)

  datatype Unknown = Unknown(before: Record, blockers: seq<Record>, after: Option<Record>)

  datatype Difference = Difference(appeared: seq<Record>, resolved: seq<Record>, unknown: seq<Unknown>,
                                   worsened: seq<Change>, improved: seq<Change>, changed: seq<Change>,
                                   unchangedCount: nat)

  // ---------------------------------------------------------------------------
  // Accessors

  predicate StableEqual(a: Record, b: Record)
  {
    a.(ruleId := "") == b.(ruleId := "")
  }

  function SeverityWeight(severity: string): int
  {
    if severity == "issue" then 4
    else if severity == "warning" then 3
    else if severity == "unavailable" then 2
    else if severity == "candidate" then 1
    else 0
  }

  function Lookup(m: map<string, Record>, k: string): Record
  {
    if k in m then m[k] else NO_RECORD
  }

  /** Later findings replace earlier ones with the same ID. */
  function FindingMap(findings: seq<Record>): map<string, Record>
  {
    if findings == [] then map[]
    else
      var rest, last := FindingMap(findings[..|findings| - 1]), findings[|findings| - 1];
      if last.id == "" then rest else rest[last.id := last]
  }

  function Key(r: Record): string
  {
    if r.code == "" || r.resource == "" then "" else r.code + "\0" + r.resource
  }

  function WithKey(k: string, values: seq<Record>): seq<Record>
  {
    Filter((r: Record) => Key(r) == k, values)
  }

  function KeysOf(values: seq<Record>): set<string>
  {
    set r | r in values && Key(r) != "" :: Key(r)
  }

  /** Records by code and resource, where exactly one record has them. */
  function Correlation(values: seq<Record>): map<string, Record>
  {
    map k | k in KeysOf(values) && |WithKey(k, values)| == 1 :: WithKey(k, values)[0]
  }

  function UnavailableIn(doc: Document, section: string): seq<Record>
  {
    Filter((r: Record) => r.severity == "unavailable" && r.section == section, doc.findings)
  }

  function BlockerRule(b: Record): string
  {
    if b.ruleId != "" then b.ruleId
    else if HasPrefix(b.resource, "Rule/") then b.resource[5..]
    else b.resource
  }

  function MatchingUnavailable(r: Record, blockers: seq<Record>): seq<Record>
  {
    if r.ruleId == "" then blockers else Filter((b: Record) => BlockerRule(b) == r.ruleId, blockers)
  }

  function BlockersOf(doc: Document, r: Record): seq<Record>
  {
    if r.section == "" then [] else MatchingUnavailable(r, UnavailableIn(doc, r.section))
  }

  predicate EvaluationUnavailable(doc: Document, r: Record)
  {
    |BlockersOf(doc, r)| > 0
  }

  /** Whether the later document could not evaluate the earlier finding. */
  predicate BecameUnknown(after: Document, r: Record)
  {
    r.severity != "unavailable" && EvaluationUnavailable(after, r)
  }

  // ---------------------------------------------------------------------------
  // Compare as a definition over sorted IDs and keys

  datatype Verdict = ToUnknown | Worse | Better | Same

  function VerdictOf(after: Document, c: Change): Verdict
  {
    if c.before.severity != "unavailable" && c.after.severity == "unavailable" && BecameUnknown(after, c.before) then ToUnknown
    else if SeverityWeight(c.after.severity) > SeverityWeight(c.before.severity) then Worse
    else if SeverityWeight(c.after.severity) < SeverityWeight(c.before.severity) then Better
    else Same
  }

  function Values(m: map<string, Record>, ids: seq<string>): seq<Record>
  {
    Map((id: string) => Lookup(m, id), ids)
  }

  function Common(b: map<string, Record>, a: map<string, Record>): seq<Change>
  {
    Map((id: string) => Change(Lookup(b, id), Lookup(a, id)), SortedKeys(b.Keys * a.Keys))
  }

  /** The findings of m that the other report does not have. */
  function Only(m: map<string, Record>, other: map<string, Record>): seq<Record>
  {
    Values(m, SortedKeys(m.Keys - other.Keys))
  }

  /** Findings whose ID changed but which are the only one with their code and
      resource on both sides. */
  function Pairs(b: map<string, Record>, a: map<string, Record>): seq<Change>
  {
    var left, right := Correlation(Only(b, a)), Correlation(Only(a, b));
    Map((k: string) => Change(Lookup(left, k), Lookup(right, k)), SortedKeys(left.Keys * right.Keys))
  }

  function PairedBefore(pairs: seq<Change>): set<string> { set c | c in pairs :: c.before.id }

  function PairedAfter(pairs: seq<Change>): set<string> { set c | c in pairs :: c.after.id }

  function Having(after: Document, v: Verdict, pairs: seq<Change>): seq<Change>
  {
    Filter((c: Change) => VerdictOf(after, c) == v, pairs)
  }

  function Altered(common: seq<Change>): seq<Change>
  {
    Filter((c: Change) => !StableEqual(c.before, c.after), common)
  }

  function Remaining(only: seq<Record>, paired: set<string>): seq<Record>
  {
    Filter((r: Record) => r.id !in paired, only)
  }

  function UnknownChanges(after: Document, pairs: seq<Change>): seq<Unknown>
  {
    Map((c: Change) => Unknown(c.before, BlockersOf(after, c.before), Some(c.after)), Having(after, ToUnknown, pairs))
  }

  function UnknownGone(after: Document, gone: seq<Record>): seq<Unknown>
  {
    Map((r: Record) => Unknown(r, BlockersOf(after, r), None), Filter((r: Record) => BecameUnknown(after, r), gone))
  }

  function Resolved(after: Document, gone: seq<Record>): seq<Record>
  {
    Filter((r: Record) => !BecameUnknown(after, r), gone)
  }

  function CompareOf(before: Document, after: Document): Difference
  {
    var b, a := FindingMap(before.findings), FindingMap(after.findings);
    var pairs, common := Pairs(b, a), Common(b, a);
    var gone := Remaining(Only(b, a), PairedBefore(pairs));
    Difference(
      Remaining(Only(a, b), PairedAfter(pairs)),
      Resolved(after, gone),
      UnknownChanges(after, pairs) + UnknownGone(after, gone),
      Having(after, Worse, pairs),
      Having(after, Better, pairs),
      Altered(common) + Having(after, Same, pairs),
      |common| - |Altered(common)|)
  }

  // ---------------------------------------------------------------------------
  // The program

  method BuildFindingMap(findings: seq<Record>) returns (result: map<string, Record>)
    ensures result == FindingMap(findings)
  {
    result := map[];
    for i := 0 to |findings|
      invariant result == FindingMap(findings[..i])
    {
      PrefixStep(findings, i);
      if findings[i].id != "" {
        result := result[findings[i].id := findings[i]];
      }
    }
    assert findings[..|findings|] == findings;
  }

  lemma NoKeyNoValues(k: string, values: seq<Record>)
    requires k != "" && k !in KeysOf(values)
    ensures WithKey(k, values) == []
  {
    FilterNone((r: Record) => Key(r) == k, values);
  }

  method CorrelationMap(values: seq<Record>) returns (result: map<string, Record>)
    ensures result == Correlation(values)
  {
    var grouped: map<string, seq<Record>> := map[];
    for i := 0 to |values|
      invariant grouped.Keys == KeysOf(values[..i])
      invariant forall k :: k in grouped ==> grouped[k] == WithKey(k, values[..i])
    {
      PrefixStep(values, i);
      assert values[..i + 1] == values[..i] + [values[i]];
      var key := Key(values[i]);
      if key == "" {
        continue;
      }
      if key !in grouped {
        NoKeyNoValues(key, values[..i]);
      }
      grouped := grouped[key := (if key in grouped then grouped[key] else []) + [values[i]]];
    }
    assert values[..|values|] == values;
    result := map k | k in grouped && |grouped[k]| == 1 :: grouped[k][0];
  }

  method CompareCommon(common: seq<Change>) returns (changed: seq<Change>)
    ensures changed == Altered(common)
  {
    changed := [];
    for i := 0 to |common|
      invariant changed == Altered(common[..i])
    {
      PrefixStep(common, i);
      if !StableEqual(common[i].before, common[i].after) {
        changed := changed + [common[i]];
      }
    }
    assert common[..|common|] == common;
  }

  lemma PairStep(after: Document, pairs: seq<Change>, i: nat)
    requires i < |pairs|
    ensures forall v :: Having(after, v, pairs[..i + 1])
              == Having(after, v, pairs[..i]) + if VerdictOf(after, pairs[i]) == v then [pairs[i]] else []
    ensures UnknownChanges(after, pairs[..i + 1])
            == UnknownChanges(after, pairs[..i])
               + if VerdictOf(after, pairs[i]) == ToUnknown
                 then [Unknown(pairs[i].before, BlockersOf(after, pairs[i].before), Some(pairs[i].after))] else []
    ensures PairedBefore(pairs[..i + 1]) == PairedBefore(pairs[..i]) + {pairs[i].before.id}
    ensures PairedAfter(pairs[..i + 1]) == PairedAfter(pairs[..i]) + {pairs[i].after.id}
  {
    hide VerdictOf, BlockersOf;
    PrefixStep(pairs, i);
    assert pairs[..i + 1] == pairs[..i] + [pairs[i]];
    MapAppend((c: Change) => Unknown(c.before, BlockersOf(after, c.before), Some(c.after)),
              Having(after, ToUnknown, pairs[..i]), pairs[i]);
  }

  lemma ComparePairsEmpty(after: Document)
    ensures forall v :: Having(after, v, []) == []
    ensures UnknownChanges(after, []) == [] && PairedBefore([]) == {} && PairedAfter([]) == {}
  {
  }

  method ComparePairs(after: Document, pairs: seq<Change>)
    returns (unknown: seq<Unknown>, worsened: seq<Change>, improved: seq<Change>, changed: seq<Change>,
             changedBefore: set<string>, changedAfter: set<string>)
    ensures unknown == UnknownChanges(after, pairs)
    ensures worsened == Having(after, Worse, pairs)
    ensures improved == Having(after, Better, pairs)
    ensures changed == Having(after, Same, pairs)
    ensures changedBefore == PairedBefore(pairs) && changedAfter == PairedAfter(pairs)
  {
    hide BecameUnknown, BlockersOf, Having, UnknownChanges, PairedBefore, PairedAfter;
    ComparePairsEmpty(after);
    unknown, worsened, improved, changed := [], [], [], [];
    changedBefore, changedAfter := {}, {};
    for i := 0 to |pairs|
      invariant unknown == UnknownChanges(after, pairs[..i])
      invariant worsened == Having(after, Worse, pairs[..i])
      invariant improved == Having(after, Better, pairs[..i])
      invariant changed == Having(after, Same, pairs[..i])
      invariant changedBefore == PairedBefore(pairs[..i]) && changedAfter == PairedAfter(pairs[..i])
    {
      PairStep(after, pairs, i);
      var pair := pairs[i];
      changedBefore := changedBefore + {pair.before.id};
      changedAfter := changedAfter + {pair.after.id};
      if pair.before.severity != "unavailable" && pair.after.severity == "unavailable" && BecameUnknown(after, pair.before) {
        unknown := unknown + [Unknown(pair.before, BlockersOf(after, pair.before), Some(pair.after))];
        continue;
      }
      var beforeWeight, afterWeight := SeverityWeight(pair.before.severity), SeverityWeight(pair.after.severity);
      if afterWeight > beforeWeight {
        worsened := worsened + [pair];
      } else if afterWeight < beforeWeight {
        improved := improved + [pair];
      } else {
        changed := changed + [pair];
      }
    }
    assert pairs[..|pairs|] == pairs;
  }

  method CompareGone(after: Document, only: seq<Record>, changedBefore: set<string>)
    returns (unknown: seq<Unknown>, resolved: seq<Record>)
    ensures unknown == UnknownGone(after, Remaining(only, changedBefore))
    ensures resolved == Resolved(after, Remaining(only, changedBefore))
  {
    unknown, resolved := [], [];
    for i := 0 to |only|
      invariant unknown == UnknownGone(after, Remaining(only[..i], changedBefore))
      invariant resolved == Resolved(after, Remaining(only[..i], changedBefore))
    {
      PrefixStep(only, i);
      if only[i].id in changedBefore {
        continue;
      }
      ghost var gone := Remaining(only[..i], changedBefore);
      assert (gone + [only[i]])[..|gone|] == gone;
      if BecameUnknown(after, only[i]) {
        MapAppend((r: Record) => Unknown(r, BlockersOf(after, r), None),
                  Filter((r: Record) => BecameUnknown(after, r), gone), only[i]);
        unknown := unknown + [Unknown(only[i], BlockersOf(after, only[i]), None)];
        continue;
      }
      resolved := resolved + [only[i]];
    }
    assert only[..|only|] == only;
  }

  method CompareNew(only: seq<Record>, changedAfter: set<string>) returns (appeared: seq<Record>)
    ensures appeared == Remaining(only, changedAfter)
  {
    appeared := [];
    for i := 0 to |only|
      invariant appeared == Remaining(only[..i], changedAfter)
    {
      PrefixStep(only, i);
      if only[i].id !in changedAfter {
        appeared := appeared + [only[i]];
      }
    }
    assert only[..|only|] == only;
  }

  method Compare(before: Document, after: Document) returns (diff: Difference)
    ensures diff == CompareOf(before, after)
  {
    var b := BuildFindingMap(before.findings);
    var a := BuildFindingMap(after.findings);
    var beforeOnly, afterOnly, common := Only(b, a), Only(a, b), Common(b, a);
    var left := CorrelationMap(beforeOnly);
    var right := CorrelationMap(afterOnly);
    var changed := CompareCommon(common);
    var pairs := Map((k: string) => Change(Lookup(left, k), Lookup(right, k)), SortedKeys(left.Keys * right.Keys));
    var unknown, worsened, improved, changedPairs, changedBefore, changedAfter := ComparePairs(after, pairs);
    var unknownGone, resolved := CompareGone(after, beforeOnly, changedBefore);
    var appeared := CompareNew(afterOnly, changedAfter);
    diff := Difference(appeared, resolved, unknown + unknownGone, worsened, improved, changed + changedPairs,
                       |common| - |changed|);
  }
}
