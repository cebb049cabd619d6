/** What each entry of a difference means, stated on the records of the two reports:
    which change is a worsening, what is new or gone, and what a webhook is told. */
module DiffLaws {
  import opened Text
  import opened Seqs
  import opened Sorting
  import opened Keys
  import opened Model
  import opened Report
  import opened ReportLaws
  import opened HistoryDiff

  // ---------------------------------------------------------------------------
  // The order of severities

  /** From the least to the most severe; other names stand before all of these. */
  const SEVERITIES := ["candidate", "unavailable", "warning", "issue"]

  /** The severity a stands strictly later in the list than b. */
  ghost predicate StandsLater(a: string, b: string)
  {
    exists j :: 0 <= j < 4 && SEVERITIES[j] == a && forall k :: j <= k < 4 ==> SEVERITIES[k] != b
  }

  lemma WeightIsOrder(a: string, b: string)
    ensures SeverityWeight(a) > SeverityWeight(b) <==> StandsLater(a, b)
  {
    assert "issue" != "warning" && "issue" != "unavailable" && "issue" != "candidate" && "warning" != "unavailable"
        && "warning" != "candidate" && "unavailable" != "candidate";
    if SeverityWeight(a) > SeverityWeight(b) {
      var j := SeverityWeight(a) - 1;
      assert SEVERITIES[j] == a;
      forall k | j <= k < 4 ensures SEVERITIES[k] != b {
        assert SeverityWeight(SEVERITIES[k]) == k + 1;
      }
    }
    if StandsLater(a, b) {
      var j :| 0 <= j < 4 && SEVERITIES[j] == a && forall k :: j <= k < 4 ==> SEVERITIES[k] != b;
      assert SeverityWeight(a) == j + 1;
      assert SEVERITIES[0] == "candidate" && SEVERITIES[1] == "unavailable" && SEVERITIES[2] == "warning" && SEVERITIES[3] == "issue";
    }
  }

  // ---------------------------------------------------------------------------
  // Records and keys

  /** The report's record of an ID is the last one that has it. */
  lemma {:induction false} FindingMapIsLast(findings: seq<Record>, r: Record)
    ensures r.id in FindingMap(findings) && FindingMap(findings)[r.id] == r <==> r.id != "" && LastWithId(findings, r)
  {
    hide LastWithId;
    if findings == [] {
      NothingIsLast(r);
    } else {
      FindingMapIsLast(findings[..|findings| - 1], r);
      LastWithIdStep(findings, r);
    }
  }

  ghost predicate LastWithId(findings: seq<Record>, r: Record)
  {
    exists i :: 0 <= i < |findings| && findings[i] == r && forall j :: i < j < |findings| ==> findings[j].id != r.id
  }

  lemma NothingIsLast(r: Record)
    ensures !LastWithId([], r)
  {
  }

  lemma LastWithIdStep(findings: seq<Record>, r: Record)
    requires findings != []
    ensures var n := |findings| - 1;
            LastWithId(findings, r) <==> if findings[n].id == r.id then findings[n] == r else LastWithId(findings[..n], r)
  {
    var n := |findings| - 1;
    var init := findings[..n];
    if i :| 0 <= i < n && init[i] == r && forall j :: i < j < n ==> init[j].id != r.id {
      if findings[n].id != r.id {
        assert findings[i] == r && forall j :: i < j < n ==> findings[j].id == init[j].id;
      }
    }
    if i :| 0 <= i < |findings| && findings[i] == r && forall j :: i < j < |findings| ==> findings[j].id != r.id {
      if i < n {
        assert init[i] == r && forall j :: i < j < n ==> init[j].id == findings[j].id;
      }
    }
    if findings[n] == r {
      assert LastWithId(findings, r);
    }
  }

  /** Records share a key when they have the same code and resource. */
  lemma KeysIdentify(r: Record, s: Record)
    requires '\0' !in r.code && '\0' !in s.code
    ensures Key(r) == Key(s) != "" <==> r.code == s.code != "" && r.resource == s.resource != ""
  {
    assert r.code + "\0" + r.resource == r.code + ['\0'] + r.resource;
    assert s.code + "\0" + s.resource == s.code + ['\0'] + s.resource;
    SplitsOnce('\0', r.code, r.resource, s.code, s.resource);
  }

  /** The record is in the first report and its ID is not in the second. */
  ghost predicate OnlyIn(first: Document, second: Document, r: Record)
  {
    && r.id in FindingMap(first.findings) && FindingMap(first.findings)[r.id] == r
    && r.id !in FindingMap(second.findings)
  }

  lemma OnlyMembers(first: Document, second: Document, r: Record)
    ensures r in Only(FindingMap(first.findings), FindingMap(second.findings)) <==> OnlyIn(first, second, r)
  {
    FindingMapKeyed(first.findings);
    OnlyIds(FindingMap(first.findings), FindingMap(second.findings));
    hide Only, FindingMap;
  }

  /** No other record of the first report alone has the key. */
  ghost predicate AloneIn(first: Document, second: Document, r: Record)
  {
    OnlyIn(first, second, r) && Key(r) != "" && forall x :: OnlyIn(first, second, x) && Key(x) == Key(r) ==> x == r
  }

  /** Exactly one earlier-only and exactly one later-only record have the key. */
  ghost predicate Paired(before: Document, after: Document, r: Record, s: Record)
  {
    AloneIn(before, after, r) && AloneIn(after, before, s) && Key(r) == Key(s)
  }

  lemma DistinctById(values: seq<Record>, i: nat, j: nat)
    requires forall id :: multiset(RecordIds(values))[id] <= 1
    requires i < j < |values|
    ensures values[i] != values[j]
  {
    MapAt((r: Record) => r.id, values, i);
    MapAt((r: Record) => r.id, values, j);
    DistinctIsMultiplicity(RecordIds(values));
  }

  lemma OnlyAreDistinct(first: Document, second: Document)
    ensures Distinct(Only(FindingMap(first.findings), FindingMap(second.findings)))
  {
    var values := Only(FindingMap(first.findings), FindingMap(second.findings));
    FindingMapKeyed(first.findings);
    OnlyIds(FindingMap(first.findings), FindingMap(second.findings));
    hide Only, FindingMap;
    forall i, j | 0 <= i < j < |values| ensures values[i] != values[j] {
      DistinctById(values, i, j);
    }
  }

  /** The one record of a list with a key. */
  lemma CorrelationIs(values: seq<Record>, r: Record)
    requires Distinct(values)
    ensures Key(r) in Correlation(values) && Correlation(values)[Key(r)] == r
            <==> r in values && Key(r) != "" && forall x :: x in values && Key(x) == Key(r) ==> x == r
  {
    var k := Key(r);
    var same := WithKey(k, values);
    hide Key;
    FilterMembers((x: Record) => Key(x) == k, values);
    CorrelationMembers(values, k);
    DistinctIsMultiplicity(values);
    FilterMultiplicity((x: Record) => Key(x) == k, values, r);
    if r in values && k != "" && forall x :: x in values && Key(x) == k ==> x == r {
      assert r in same;
      OnlyCopies(same, r);
      assert k in KeysOf(values);
    }
    if k in Correlation(values) && Correlation(values)[k] == r {
      assert same == [r];
      forall x | x in values && Key(x) == k ensures x == r {
        assert x in same;
      }
    }
  }

  lemma Copies(s: seq<Record>, r: Record)
    requires forall x :: x in s ==> x == r
    ensures multiset(s)[r] == |s|
  {
    if s != [] {
      var last := |s| - 1;
      assert s == s[..last] + [s[last]];
      assert s[last] in s && forall x :: x in s[..last] ==> x in s;
      Copies(s[..last], r);
    }
  }

  lemma OnlyCopies(s: seq<Record>, r: Record)
    requires r in s && (forall x :: x in s ==> x == r) && multiset(s)[r] <= 1
    ensures s == [r]
  {
    Copies(s, r);
  }

  lemma CorrelatedOnly(first: Document, second: Document, r: Record)
    ensures var only := Only(FindingMap(first.findings), FindingMap(second.findings));
            Key(r) in Correlation(only) && Correlation(only)[Key(r)] == r <==> AloneIn(first, second, r)
  {
    var only := Only(FindingMap(first.findings), FindingMap(second.findings));
    OnlyAreDistinct(first, second);
    CorrelationIs(only, r);
    hide Only, FindingMap, Correlation, Key, OnlyIn;
    forall x ensures x in only <==> OnlyIn(first, second, x) {
      OnlyMembers(first, second, x);
    }
  }

  /** The pairs are exactly the records that are alone with their key on both sides. */
  lemma PairsMembers(before: Document, after: Document, r: Record, s: Record)
    ensures Change(r, s) in Pairs(FindingMap(before.findings), FindingMap(after.findings)) <==> Paired(before, after, r, s)
  {
    var b, a := FindingMap(before.findings), FindingMap(after.findings);
    var left, right := Correlation(Only(b, a)), Correlation(Only(a, b));
    var keys := SortedKeys(left.Keys * right.Keys);
    SortedKeysFacts(left.Keys * right.Keys);
    MapMembers((k: string) => Change(Lookup(left, k), Lookup(right, k)), keys);
    CorrelatedOnly(before, after, r);
    CorrelatedOnly(after, before, s);
    PairsFacts(b, a);
    hide Only, FindingMap, Correlation, SortedKeys, Map, AloneIn;
    if Paired(before, after, r, s) {
      assert Key(r) in keys;
    }
    if Change(r, s) in Pairs(b, a) {
      var k :| k in keys && Change(Lookup(left, k), Lookup(right, k)) == Change(r, s);
      CorrelationMembers(Only(b, a), k);
      CorrelationMembers(Only(a, b), k);
    }
  }

  // ---------------------------------------------------------------------------
  // Unknown evaluations

  /** An unavailable finding that names the rule, itself or by its resource. */
  predicate NamesRule(b: Record, rule: string)
  {
    if b.ruleId != "" then b.ruleId == rule
    else b.resource == "Rule/" + rule || (b.resource == rule && !HasPrefix(b.resource, "Rule/"))
  }

  /** A finding cannot be evaluated when its section has an unavailable finding of its
      rule, or of any rule if its own is not recorded. */
  lemma BlockersExactly(doc: Document, r: Record, b: Record)
    ensures b in BlockersOf(doc, r)
            <==> && r.section != "" && b in doc.findings && b.severity == "unavailable" && b.section == r.section
                 && (r.ruleId == "" || NamesRule(b, r.ruleId))
  {
    FilterMembers((x: Record) => x.severity == "unavailable" && x.section == r.section, doc.findings);
    FilterMembers((x: Record) => BlockerRule(x) == r.ruleId, UnavailableIn(doc, r.section));
    if b.ruleId == "" && HasPrefix(b.resource, "Rule/") {
      assert b.resource == "Rule/" + b.resource[5..];
    }
    assert ("Rule/" + r.ruleId)[5..] == r.ruleId;
    hide Filter;
  }

  ghost predicate Blocked(doc: Document, r: Record)
  {
    exists b :: && r.section != "" && b in doc.findings && b.severity == "unavailable" && b.section == r.section
                && (r.ruleId == "" || NamesRule(b, r.ruleId))
  }

  lemma BlockedExactly(doc: Document, r: Record)
    ensures EvaluationUnavailable(doc, r) <==> Blocked(doc, r)
  {
    hide BlockersOf;
    forall b ensures b in BlockersOf(doc, r)
                     <==> && r.section != "" && b in doc.findings && b.severity == "unavailable" && b.section == r.section
                          && (r.ruleId == "" || NamesRule(b, r.ruleId))
    {
      BlockersExactly(doc, r, b);
    }
    if |BlockersOf(doc, r)| > 0 {
      assert BlockersOf(doc, r)[0] in BlockersOf(doc, r);
    }
  }

  // ---------------------------------------------------------------------------
  // Compare, entry by entry

  /** An evaluated finding whose later sample only says that it could not be evaluated. */
  ghost predicate TurnedUnknown(after: Document, r: Record, s: Record)
  {
    r.severity != "unavailable" && s.severity == "unavailable" && Blocked(after, r)
  }

  lemma VerdictIs(after: Document, r: Record, s: Record)
    ensures VerdictOf(after, Change(r, s)) == ToUnknown <==> TurnedUnknown(after, r, s)
    ensures VerdictOf(after, Change(r, s)) == Worse <==> !TurnedUnknown(after, r, s) && StandsLater(s.severity, r.severity)
    ensures VerdictOf(after, Change(r, s)) == Better <==> !TurnedUnknown(after, r, s) && StandsLater(r.severity, s.severity)
  {
    BlockedExactly(after, r);
    WeightIsOrder(s.severity, r.severity);
    WeightIsOrder(r.severity, s.severity);
    hide SeverityWeight, StandsLater, Blocked, BlockersOf;
  }

  /** A finding whose ID changed and that is alone with its code and resource on both
      sides is worsened, improved or changed as its severity moved in the list, unless
      the later report could not evaluate it. */
  lemma PairOutcome(before: Document, after: Document, r: Record, s: Record)
    requires Paired(before, after, r, s) && !TurnedUnknown(after, r, s)
    ensures var d := CompareOf(before, after);
            && (Change(r, s) in d.worsened <==> StandsLater(s.severity, r.severity))
            && (Change(r, s) in d.improved <==> StandsLater(r.severity, s.severity))
            && (Change(r, s) in d.changed <==> !StandsLater(s.severity, r.severity) && !StandsLater(r.severity, s.severity))
  {
    var b, a := FindingMap(before.findings), FindingMap(after.findings);
    var pairs, c := Pairs(b, a), Change(r, s);
    PairsMembers(before, after, r, s);
    VerdictIs(after, r, s);
    NotCommon(before, after, r, s);
    forall v ensures c in Having(after, v, pairs) <==> VerdictOf(after, c) == v {
      FilterMembers((x: Change) => VerdictOf(after, x) == v, pairs);
    }
    hide Pairs, Common, Having, VerdictOf, StandsLater, TurnedUnknown, FindingMap, Altered;
  }

  lemma NotCommon(before: Document, after: Document, r: Record, s: Record)
    requires OnlyIn(before, after, r)
    ensures Change(r, s) !in Altered(Common(FindingMap(before.findings), FindingMap(after.findings)))
  {
    var b, a := FindingMap(before.findings), FindingMap(after.findings);
    CommonMembers(before, after, r, s);
    FilterMembers((c: Change) => !StableEqual(c.before, c.after), Common(b, a));
    hide Common, FindingMap;
  }

  lemma CommonMembers(before: Document, after: Document, r: Record, s: Record)
    ensures var b, a := FindingMap(before.findings), FindingMap(after.findings);
            Change(r, s) in Common(b, a)
            <==> r.id == s.id && r.id in b && s.id in a && b[r.id] == r && a[s.id] == s
  {
    var b, a := FindingMap(before.findings), FindingMap(after.findings);
    FindingMapKeyed(before.findings);
    FindingMapKeyed(after.findings);
    SortedKeysFacts(b.Keys * a.Keys);
    MapMembers((id: string) => Change(Lookup(b, id), Lookup(a, id)), SortedKeys(b.Keys * a.Keys));
    hide FindingMap, SortedKeys, Map;
    if r.id == s.id && r.id in b && s.id in a && b[r.id] == r && a[s.id] == s {
      assert r.id in SortedKeys(b.Keys * a.Keys);
    }
  }

  /** A finding with the same ID on both sides is changed exactly when one of the compared fields differs. */
  lemma CommonOutcome(before: Document, after: Document, r: Record, s: Record)
    requires r.id == s.id
    requires r.id in FindingMap(before.findings) && FindingMap(before.findings)[r.id] == r
    requires s.id in FindingMap(after.findings) && FindingMap(after.findings)[s.id] == s
    ensures Change(r, s) in CompareOf(before, after).changed
            <==> || r.code != s.code || r.severity != s.severity || r.section != s.section || r.resource != s.resource
                 || r.acknowledged != s.acknowledged || r.stable != s.stable
  {
    var b, a := FindingMap(before.findings), FindingMap(after.findings);
    var pairs, c := Pairs(b, a), Change(r, s);
    CommonMembers(before, after, r, s);
    FilterMembers((x: Change) => !StableEqual(x.before, x.after), Common(b, a));
    FilterMembers((x: Change) => VerdictOf(after, x) == Same, pairs);
    PairsMembers(before, after, r, s);
    hide Pairs, Common, VerdictOf, FindingMap, Key, BlockersOf;
  }

  lemma PairedIds(before: Document, after: Document, r: Record)
    requires OnlyIn(before, after, r)
    ensures r.id in PairedBefore(Pairs(FindingMap(before.findings), FindingMap(after.findings)))
            <==> exists s :: Paired(before, after, r, s)
  {
    var b, a := FindingMap(before.findings), FindingMap(after.findings);
    hide Pairs, FindingMap, Key;
    if c :| c in Pairs(b, a) && c.before.id == r.id {
      PairsMembers(before, after, c.before, c.after);
      assert c == Change(c.before, c.after);
      assert Paired(before, after, r, c.after);
    }
    if s :| Paired(before, after, r, s) {
      PairsMembers(before, after, r, s);
    }
  }

  lemma PairedLaterIds(before: Document, after: Document, s: Record)
    requires OnlyIn(after, before, s)
    ensures s.id in PairedAfter(Pairs(FindingMap(before.findings), FindingMap(after.findings)))
            <==> exists r :: Paired(before, after, r, s)
  {
    var b, a := FindingMap(before.findings), FindingMap(after.findings);
    hide Pairs, FindingMap, Key;
    if c :| c in Pairs(b, a) && c.after.id == s.id {
      PairsMembers(before, after, c.before, c.after);
      assert c == Change(c.before, c.after);
      assert Paired(before, after, c.before, s);
    }
    if r :| Paired(before, after, r, s) {
      PairsMembers(before, after, r, s);
    }
  }

  /** A finding is new exactly when its ID is new and it is not the later side of a pair. */
  lemma NewExactly(before: Document, after: Document, s: Record)
    ensures s in CompareOf(before, after).appeared
            <==> OnlyIn(after, before, s) && forall r :: !Paired(before, after, r, s)
  {
    var b, a := FindingMap(before.findings), FindingMap(after.findings);
    var paired := PairedAfter(Pairs(b, a));
    OnlyMembers(after, before, s);
    FilterMembers((x: Record) => x.id !in paired, Only(a, b));
    if OnlyIn(after, before, s) {
      PairedLaterIds(before, after, s);
    }
    hide Pairs, Only, FindingMap, Key, PairedAfter;
  }

  /** A finding that is gone and not part of a pair is resolved exactly when the later
      report could evaluate it; otherwise it is listed as unknown, with what blocked it. */
  lemma GoneOutcome(before: Document, after: Document, r: Record)
    requires OnlyIn(before, after, r) && forall s :: !Paired(before, after, r, s)
    ensures var d := CompareOf(before, after);
            && (r in d.resolved <==> r.severity == "unavailable" || !Blocked(after, r))
            && (r.severity != "unavailable" && Blocked(after, r) ==> Unknown(r, BlockersOf(after, r), None) in d.unknown)
  {
    var b, a := FindingMap(before.findings), FindingMap(after.findings);
    var pairs := Pairs(b, a);
    var paired := PairedBefore(pairs);
    var gone := Remaining(Only(b, a), paired);
    OnlyMembers(before, after, r);
    PairedIds(before, after, r);
    BlockedExactly(after, r);
    FilterMembers((x: Record) => x.id !in paired, Only(b, a));
    FilterMembers((x: Record) => !BecameUnknown(after, x), gone);
    FilterMembers((x: Record) => BecameUnknown(after, x), gone);
    MapMembers((x: Record) => Unknown(x, BlockersOf(after, x), None), Filter((x: Record) => BecameUnknown(after, x), gone));
    hide Pairs, Only, FindingMap, Key, PairedBefore, Filter, Map, Blocked, BlockersOf;
  }

  /** A pair whose later side could not be evaluated is listed as unknown and nowhere else. */
  lemma UnknownPairOutcome(before: Document, after: Document, r: Record, s: Record)
    requires Paired(before, after, r, s) && TurnedUnknown(after, r, s)
    ensures var d := CompareOf(before, after);
            && Unknown(r, BlockersOf(after, r), Some(s)) in d.unknown
            && Change(r, s) !in d.worsened && Change(r, s) !in d.improved && Change(r, s) !in d.changed
  {
    var b, a := FindingMap(before.findings), FindingMap(after.findings);
    var pairs, c := Pairs(b, a), Change(r, s);
    PairsMembers(before, after, r, s);
    VerdictIs(after, r, s);
    NotCommon(before, after, r, s);
    forall v ensures c in Having(after, v, pairs) <==> VerdictOf(after, c) == v {
      FilterMembers((x: Change) => VerdictOf(after, x) == v, pairs);
    }
    MapMembers((x: Change) => Unknown(x.before, BlockersOf(after, x.before), Some(x.after)), Having(after, ToUnknown, pairs));
    hide Pairs, Common, Having, VerdictOf, StandsLater, TurnedUnknown, FindingMap, Altered, BlockersOf, Map;
  }

  // ---------------------------------------------------------------------------
  // Bridges and the webhook

  /** A sample knows a record of a key that only one of its findings has and that was evaluated. */
  lemma KnownExactly(doc: Document, r: Record)
    requires Key(r) != ""
    ensures KnownIn(doc, Key(r)) == Some(r)
            <==> && r.severity != "unavailable"
                 && exists i :: && 0 <= i < |doc.findings| && doc.findings[i] == r
                                && forall j :: 0 <= j < |doc.findings| && j != i ==> Key(doc.findings[j]) != Key(r)
  {
    var k, fs := Key(r), doc.findings;
    CorrelationMembers(fs, k);
    SoleExactly(fs, r);
    hide Key;
    if |WithKey(k, fs)| == 1 && WithKey(k, fs)[0] == r {
      FilterMembers((x: Record) => Key(x) == k, fs);
      assert r in WithKey(k, fs);
      assert k in KeysOf(fs);
    }
    hide WithKey, KeysOf;
  }

  lemma {:induction false} SoleExactly(fs: seq<Record>, r: Record)
    ensures WithKey(Key(r), fs) == [r]
            <==> exists i :: 0 <= i < |fs| && fs[i] == r && forall j :: 0 <= j < |fs| && j != i ==> Key(fs[j]) != Key(r)
  {
    var k := Key(r);
    hide Key;
    if i :| 0 <= i < |fs| && fs[i] == r && forall j :: 0 <= j < |fs| && j != i ==> Key(fs[j]) != k {
      assert fs == fs[..i] + [r] + fs[i + 1..];
      FilterNone((x: Record) => Key(x) == k, fs[..i]);
      FilterNone((x: Record) => Key(x) == k, fs[i + 1..]);
      FilterConcat((x: Record) => Key(x) == k, fs[..i], [r]);
      FilterConcat((x: Record) => Key(x) == k, fs[..i] + [r], fs[i + 1..]);
      assert [r][..0] == [];
    }
    if WithKey(k, fs) == [r] {
      SoleIndex(fs, k, r);
    }
  }

  lemma SoleIndex(fs: seq<Record>, k: string, r: Record)
    requires WithKey(k, fs) == [r]
    ensures exists i :: 0 <= i < |fs| && fs[i] == r && forall j :: 0 <= j < |fs| && j != i ==> Key(fs[j]) != k
  {
    var p := (x: Record) => Key(x) == k;
    hide Key;
    FilterMembers(p, fs);
    assert r in WithKey(k, fs);
    var i :| 0 <= i < |fs| && fs[i] == r;
    FilterMultiplicity(p, fs, r);
    assert multiset([r])[r] == 1;
    assert forall x :: x in fs && Key(x) == k ==> x == r;
    forall j | 0 <= j < |fs| && j != i ensures Key(fs[j]) != k {
      TwiceCounts(fs, i, j);
    }
  }

  lemma TwiceCounts(fs: seq<Record>, i: nat, j: nat)
    requires i < |fs| && j < |fs| && i != j
    ensures fs[i] == fs[j] ==> multiset(fs)[fs[i]] >= 2
  {
    var m, n := if i < j then i else j, if i < j then j else i;
    assert fs == fs[..m] + [fs[m]] + fs[m + 1..n] + [fs[n]] + fs[n + 1..];
  }

  /** A bridge is worsened or improved as its severity moved in the list, otherwise
      reconfirmed under the same ID and changed under another. */
  lemma BridgeOutcome(previous: seq<Document>, current: Document, b: Bridge)
    requires previous != [] && b.after in CompareOf(previous[|previous| - 1], current).appeared
    requires BridgeTo(previous, b.after) == Some(b)
    ensures var d := CompareHistoryOf(previous, current);
            && (b in d.worsened <==> StandsLater(b.after.severity, b.before.severity))
            && (b in d.improved <==> StandsLater(b.before.severity, b.after.severity))
            && (b in d.reconfirmed <==> && !StandsLater(b.after.severity, b.before.severity)
                                        && !StandsLater(b.before.severity, b.after.severity) && b.before.id == b.after.id)
            && (b in d.changed <==> && !StandsLater(b.after.severity, b.before.severity)
                                    && !StandsLater(b.before.severity, b.after.severity) && b.before.id != b.after.id)
            && b.after !in d.base.appeared
  {
    var appeared := CompareOf(previous[|previous| - 1], current).appeared;
    WeightIsOrder(b.after.severity, b.before.severity);
    WeightIsOrder(b.before.severity, b.after.severity);
    BridgesMembers(previous, Worsened, appeared);
    BridgesMembers(previous, Improved, appeared);
    BridgesMembers(previous, Reconfirmed, appeared);
    BridgesMembers(previous, Modified, appeared);
    FilterMembers((x: Record) => BridgeTo(previous, x).None?, appeared);
    hide CompareOf, BridgeTo, Bridges, StandsLater, SeverityWeight, Filter;
  }

  /** A new finding is bridged exactly when it was evaluated and the history knows it
      behind samples that could not evaluate it. */
  lemma BridgeExactly(previous: seq<Document>, b: Bridge)
    ensures BridgeTo(previous, b.after) == Some(b)
            <==> && b.after.severity != "unavailable" && Key(b.after) != "" && b.after.section != "" && b.unknownSamples > 0
                 && FoundAfter(previous, b.after, Known(b.before, b.unknownSamples, b.lastKnownAt), b.unknownSamples)
  {
    LastKnownCharacterised(previous, b.after, Known(b.before, b.unknownSamples, b.lastKnownAt));
    hide FoundAfter, LastKnown, Key;
    if BridgeTo(previous, b.after) == Some(b) {
      assert LastKnown(previous, b.after) == Some(Known(b.before, b.unknownSamples, b.lastKnownAt));
    }
  }

  /** An escalation to an unacknowledged Issue is named to the webhook. */
  lemma EscalationIsNotified(previous: seq<Document>, current: Document, r: Record, s: Record)
    requires previous != [] && Paired(previous[|previous| - 1], current, r, s)
    requires s.severity == "issue" && !s.acknowledged && r.severity != "issue"
    ensures var payload := PayloadOf(CompareHistoryOf(previous, current)); payload.Some? && s in payload.value.worsenedToIssue
  {
    hide CompareHistoryOf, CompareOf, Paired, StandsLater, PayloadOf;
    IssueStandsLast(r.severity);
    PairOutcome(previous[|previous| - 1], current, r, s);
    PlainChangesStay(previous, current);
    PayloadExactly(CompareHistoryOf(previous, current), s);
    var d, c := CompareHistoryOf(previous, current), Change(r, s);
    assert c in d.base.worsened && c.after == s;
    assert IsWorsenedIssue(d, s);
  }

  lemma IssueStandsLast(severity: string)
    requires severity != "issue"
    ensures StandsLater("issue", severity)
  {
    assert SEVERITIES[3] == "issue";
  }

  lemma PlainChangesStay(previous: seq<Document>, current: Document)
    requires previous != []
    ensures CompareHistoryOf(previous, current).base.worsened == CompareOf(previous[|previous| - 1], current).worsened
  {
    hide CompareOf, Bridges, StillNew;
  }
}
