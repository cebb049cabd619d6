/** What the difference of two reports conserves, and its symmetry. */
module ReportLaws {
  import opened Text
  import opened Seqs
  import opened Sorting
  import opened Keys
  import opened Model
  import opened Report

  function BeforeIds(changes: seq<Change>): seq<string> { Map((c: Change) => c.before.id, changes) }

  function AfterIds(changes: seq<Change>): seq<string> { Map((c: Change) => c.after.id, changes) }

  function RecordIds(records: seq<Record>): seq<string> { Map((r: Record) => r.id, records) }

  function UnknownBeforeIds(entries: seq<Unknown>): seq<string> { Map((u: Unknown) => u.before.id, entries) }

  /** The later IDs of the entries that pair an earlier finding with its failed evaluation. */
  function UnknownAfterIds(entries: seq<Unknown>): seq<string>
  {
    Map((u: Unknown) => if u.after.Some? then u.after.value.id else "", Filter((u: Unknown) => u.after.Some?, entries))
  }

  function Unaltered(common: seq<Change>): seq<Change>
  {
    Filter((c: Change) => StableEqual(c.before, c.after), common)
  }

  function UnchangedOf(before: Document, after: Document): seq<Change>
  {
    Unaltered(Common(FindingMap(before.findings), FindingMap(after.findings)))
  }

  function Flip(c: Change): Change { Change(c.after, c.before) }

  // ---------------------------------------------------------------------------
  // IDs and keys

  ghost predicate KeyedById(m: map<string, Record>)
  {
    forall id :: id in m ==> m[id].id == id
  }

  lemma {:induction false} FindingMapKeyed(findings: seq<Record>)
    ensures KeyedById(FindingMap(findings))
    ensures forall id :: id in FindingMap(findings) ==> FindingMap(findings)[id] in findings
    ensures forall r :: r in findings && r.id != "" ==> r.id in FindingMap(findings)
  {
    if findings != [] {
      FindingMapKeyed(findings[..|findings| - 1]);
      assert findings == findings[..|findings| - 1] + [findings[|findings| - 1]];
    }
  }

  lemma OnlyIds(m: map<string, Record>, other: map<string, Record>)
    requires KeyedById(m)
    ensures RecordIds(Only(m, other)) == SortedKeys(m.Keys - other.Keys)
    ensures multiset(RecordIds(Only(m, other))) == multiset(m.Keys - other.Keys)
    ensures forall r :: r in Only(m, other) <==> r.id in m && r.id !in other && m[r.id] == r
  {
    var ids := SortedKeys(m.Keys - other.Keys);
    SortedKeysFacts(m.Keys - other.Keys);
    MapMap((r: Record) => r.id, (id: string) => Lookup(m, id), (id: string) => id, ids);
    MapIdentity(ids);
    MapMembers((id: string) => Lookup(m, id), ids);
    forall r: Record | r.id in m && r.id !in other && m[r.id] == r ensures r in Only(m, other) {
      assert r.id in ids;
    }
  }

  lemma {:induction false} MapIdentity(s: seq<string>)
    ensures Map((id: string) => id, s) == s
  {
    if s != [] {
      MapIdentity(s[..|s| - 1]);
    }
  }

  lemma CorrelationMembers(values: seq<Record>, k: string)
    ensures k in Correlation(values) ==> Correlation(values)[k] in values && Key(Correlation(values)[k]) == k && k != ""
  {
    if k in Correlation(values) {
      FilterMembers((r: Record) => Key(r) == k, values);
      assert WithKey(k, values)[0] in WithKey(k, values);
    }
  }

  function PairKeys(b: map<string, Record>, a: map<string, Record>): seq<string>
  {
    SortedKeys(Correlation(Only(b, a)).Keys * Correlation(Only(a, b)).Keys)
  }

  lemma PairAt(b: map<string, Record>, a: map<string, Record>, i: nat)
    requires i < |Pairs(b, a)|
    ensures |PairKeys(b, a)| == |Pairs(b, a)|
    ensures var c := Pairs(b, a)[i];
            c.before in Only(b, a) && c.after in Only(a, b) && Key(c.before) == Key(c.after) == PairKeys(b, a)[i] != ""
  {
    var left, right, keys := Correlation(Only(b, a)), Correlation(Only(a, b)), PairKeys(b, a);
    SortedKeysFacts(left.Keys * right.Keys);
    MapAt((k: string) => Change(Lookup(left, k), Lookup(right, k)), keys, i);
    hide Only, Map, SortedKeys;
    assert keys[i] in keys;
    CorrelationMembers(Only(b, a), keys[i]);
    CorrelationMembers(Only(a, b), keys[i]);
  }

  /** Paired findings come from the two one-sided lists, and no key is paired twice. */
  lemma PairsFacts(b: map<string, Record>, a: map<string, Record>)
    ensures forall c :: c in Pairs(b, a) ==>
              c.before in Only(b, a) && c.after in Only(a, b) && Key(c.before) == Key(c.after) != ""
    ensures forall i, j :: 0 <= i < j < |Pairs(b, a)| ==> Key(Pairs(b, a)[i].before) != Key(Pairs(b, a)[j].before)
  {
    var pairs, keys := Pairs(b, a), PairKeys(b, a);
    SortedKeysFacts(Correlation(Only(b, a)).Keys * Correlation(Only(a, b)).Keys);
    LessIsStrictTotalOrder();
    hide Only, Correlation, Map, SortedKeys, Pairs;
    forall i | 0 <= i < |pairs|
      ensures var c := pairs[i];
              |keys| == |pairs| && c.before in Only(b, a) && c.after in Only(a, b) && Key(c.before) == Key(c.after) == keys[i] != ""
    {
      PairAt(b, a, i);
    }
  }

  lemma PairsFlip(b: map<string, Record>, a: map<string, Record>)
    ensures Pairs(a, b) == Map(Flip, Pairs(b, a))
  {
    var left, right := Correlation(Only(b, a)), Correlation(Only(a, b));
    var keys := SortedKeys(left.Keys * right.Keys);
    assert left.Keys * right.Keys == right.Keys * left.Keys;
    hide Only, Correlation, SortedKeys;
    MapMap(Flip, (k: string) => Change(Lookup(left, k), Lookup(right, k)),
           (k: string) => Change(Lookup(right, k), Lookup(left, k)), keys);
  }

  lemma PairedFlip(there: seq<Change>)
    ensures BeforeIds(Map(Flip, there)) == AfterIds(there)
    ensures PairedBefore(Map(Flip, there)) == PairedAfter(there)
  {
    MapMap((c: Change) => c.before.id, Flip, (c: Change) => c.after.id, there);
    MapMembers(Flip, there);
    var back := Map(Flip, there);
    hide Map;
    forall id ensures id in PairedBefore(back) <==> id in PairedAfter(there) {
      if id in PairedBefore(back) {
        var c :| c in back && c.before.id == id;
        var d :| d in there && Flip(d) == c;
      }
      if id in PairedAfter(there) {
        var c :| c in there && c.after.id == id;
        assert Flip(c) in back;
      }
    }
  }

  lemma PairedIdsOnce(b: map<string, Record>, a: map<string, Record>)
    requires KeyedById(b)
    ensures var ids := BeforeIds(Pairs(b, a));
            && (forall id :: multiset(ids)[id] <= 1)
            && (forall id :: id in ids <==> id in PairedBefore(Pairs(b, a)))
  {
    var pairs := Pairs(b, a);
    var ids := BeforeIds(pairs);
    PairsFacts(b, a);
    OnlyIds(b, a);
    hide Pairs, Only, Map;
    forall c, d | c in pairs && d in pairs && c.before.id == d.before.id ensures Key(c.before) == Key(d.before) {
      assert c.before in Only(b, a) && d.before in Only(b, a);
    }
    hide Key;
    BeforeIdsOnce(pairs);
  }

  lemma BeforeIdsOnce(pairs: seq<Change>)
    requires forall i, j :: 0 <= i < j < |pairs| ==> pairs[i].before.id != pairs[j].before.id
    ensures forall id :: multiset(BeforeIds(pairs))[id] <= 1
    ensures forall id :: id in BeforeIds(pairs) <==> id in PairedBefore(pairs)
  {
    var f := (c: Change) => c.before.id;
    var ids := BeforeIds(pairs);
    MapMembers(f, pairs);
    forall i, j | 0 <= i < j < |ids| ensures ids[i] != ids[j] {
      MapAt(f, pairs, i);
      MapAt(f, pairs, j);
    }
    DistinctIsMultiplicity(ids);
  }

  lemma PairedAreTaken(b: map<string, Record>, a: map<string, Record>, id: string)
    requires KeyedById(b)
    ensures var pairs := Pairs(b, a);
            var paired := PairedBefore(pairs);
            Times(id, RecordIds(Filter((r: Record) => r.id in paired, Only(b, a)))) == Times(id, BeforeIds(pairs))
  {
    var pairs, only := Pairs(b, a), Only(b, a);
    var paired := PairedBefore(pairs);
    var taken := Filter((r: Record) => r.id in paired, only);
    hide Pairs, Only, Map, Key, Filter, KeyedById;
    OnlyIds(b, a);
    FilterSplits((r: Record) => r.id in paired, (r: Record) => r.id !in paired, (r: Record) => r.id, only, id);
    PairedIdsOnce(b, a);
    PairsFacts(b, a);
    FilterMembers((r: Record) => r.id in paired, only);
    MapMembers((r: Record) => r.id, taken);
    assert multiset(RecordIds(only))[id] <= 1;
    assert id in RecordIds(taken) <==> id in multiset(RecordIds(taken));
    assert id in BeforeIds(pairs) <==> id in multiset(BeforeIds(pairs));
    if id in paired {
      var c :| c in pairs && c.before.id == id;
      assert c.before in taken;
    }
  }

  /** The earlier-only findings are those paired plus those remaining. */
  lemma OnlySplits(b: map<string, Record>, a: map<string, Record>, id: string)
    requires KeyedById(b)
    ensures var pairs := Pairs(b, a);
            multiset(b.Keys - a.Keys)[id]
            == Times(id, BeforeIds(pairs)) + Times(id, RecordIds(Remaining(Only(b, a), PairedBefore(pairs))))
  {
    var pairs, only := Pairs(b, a), Only(b, a);
    var paired := PairedBefore(pairs);
    OnlyIds(b, a);
    FilterSplits((r: Record) => r.id in paired, (r: Record) => r.id !in paired, (r: Record) => r.id, only, id);
    PairedAreTaken(b, a, id);
  }

  lemma HavingStep(after: Document, v: Verdict, pairs: seq<Change>)
    ensures Having(after, v, []) == []
    ensures pairs != [] ==>
              var init, last := pairs[..|pairs| - 1], pairs[|pairs| - 1];
              Having(after, v, pairs) == if VerdictOf(after, last) == v then Having(after, v, init) + [last] else Having(after, v, init)
  {
  }

  lemma {:induction false} VerdictsSplit<U(!new)>(after: Document, f: Change -> U, pairs: seq<Change>, y: U)
    ensures Times(y, Map(f, pairs))
            == Times(y, Map(f, Having(after, ToUnknown, pairs))) + Times(y, Map(f, Having(after, Worse, pairs)))
               + Times(y, Map(f, Having(after, Better, pairs))) + Times(y, Map(f, Having(after, Same, pairs)))
    ensures |pairs| == |Having(after, ToUnknown, pairs)| + |Having(after, Worse, pairs)|
                       + |Having(after, Better, pairs)| + |Having(after, Same, pairs)|
  {
    hide Times, Map, Having, VerdictOf;
    forall v { HavingStep(after, v, pairs); }
    TimesOfNothing(f, y);
    if pairs != [] {
      var init, last := pairs[..|pairs| - 1], pairs[|pairs| - 1];
      assert pairs == init + [last];
      VerdictsSplit(after, f, init, y);
      MapTimes(f, init, last, y);
      MapTimes(f, Having(after, VerdictOf(after, last), init), last, y);
    }
  }

  lemma {:induction false} MapConcat<T, U>(f: T -> U, s: seq<T>, t: seq<T>)
    ensures Map(f, s + t) == Map(f, s) + Map(f, t)
  {
    if t == [] {
      assert s + t == s;
    } else {
      MapConcat(f, s, t[..|t| - 1]);
      assert s + t == (s + t[..|t| - 1]) + [t[|t| - 1]];
      MapAppend(f, s + t[..|t| - 1], t[|t| - 1]);
    }
  }

  lemma CommonIds(b: map<string, Record>, a: map<string, Record>)
    requires KeyedById(b) && KeyedById(a)
    ensures BeforeIds(Common(b, a)) == AfterIds(Common(b, a)) == SortedKeys(b.Keys * a.Keys)
    ensures multiset(SortedKeys(b.Keys * a.Keys)) == multiset(b.Keys * a.Keys)
  {
    var ids := SortedKeys(b.Keys * a.Keys);
    SortedKeysFacts(b.Keys * a.Keys);
    var change := (id: string) => Change(Lookup(b, id), Lookup(a, id));
    MapMap((c: Change) => c.before.id, change, (id: string) => id, ids);
    MapMap((c: Change) => c.after.id, change, (id: string) => id, ids);
    MapIdentity(ids);
  }

  lemma UnknownIds(after: Document, pairs: seq<Change>, gone: seq<Record>)
    ensures UnknownBeforeIds(UnknownChanges(after, pairs) + UnknownGone(after, gone))
            == BeforeIds(Having(after, ToUnknown, pairs)) + RecordIds(Lost(after, gone))
    ensures UnknownAfterIds(UnknownChanges(after, pairs) + UnknownGone(after, gone)) == AfterIds(Having(after, ToUnknown, pairs))
  {
    var entries, lost := UnknownChanges(after, pairs), UnknownGone(after, gone);
    var fromChange := (c: Change) => Unknown(c.before, BlockersOf(after, c.before), Some(c.after));
    var fromRecord := (r: Record) => Unknown(r, BlockersOf(after, r), None);
    var unknownPairs, unknownGone := Having(after, ToUnknown, pairs), Filter((r: Record) => BecameUnknown(after, r), gone);
    MapConcat((u: Unknown) => u.before.id, entries, lost);
    MapMap((u: Unknown) => u.before.id, fromChange, (c: Change) => c.before.id, unknownPairs);
    MapMap((u: Unknown) => u.before.id, fromRecord, (r: Record) => r.id, unknownGone);
    var paired := (u: Unknown) => u.after.Some?;
    FilterConcat(paired, entries, lost);
    MapMembers(fromChange, unknownPairs);
    MapMembers(fromRecord, unknownGone);
    FilterAll(paired, entries);
    FilterNone(paired, lost);
    assert entries + [] == entries;
    MapMap((u: Unknown) => if u.after.Some? then u.after.value.id else "", fromChange, (c: Change) => c.after.id, unknownPairs);
  }

  lemma {:induction false} FilterConcat<T>(p: T -> bool, s: seq<T>, t: seq<T>)
    ensures Filter(p, s + t) == Filter(p, s) + Filter(p, t)
  {
    if t == [] {
      assert s + t == s;
    } else {
      FilterConcat(p, s, t[..|t| - 1]);
      assert (s + t)[..|s + t| - 1] == s + t[..|t| - 1];
    }
  }

  // ---------------------------------------------------------------------------
  // Conservation

  /** How often an earlier ID is counted by a difference. */
  ghost function TimesBefore(id: string, same: seq<Change>, d: Difference): nat
  {
    Times(id, BeforeIds(same)) + Times(id, BeforeIds(d.changed)) + Times(id, BeforeIds(d.worsened))
    + Times(id, BeforeIds(d.improved)) + Times(id, UnknownBeforeIds(d.unknown)) + Times(id, RecordIds(d.resolved))
  }

  lemma CommonSplits(f: Change -> string, common: seq<Change>, id: string)
    ensures Times(id, Map(f, common)) == Times(id, Map(f, Unaltered(common))) + Times(id, Map(f, Altered(common)))
    ensures |common| == |Unaltered(common)| + |Altered(common)|
  {
    FilterSplits((c: Change) => StableEqual(c.before, c.after), (c: Change) => !StableEqual(c.before, c.after), f, common, id);
  }

  function Lost(after: Document, gone: seq<Record>): seq<Record>
  {
    Filter((r: Record) => BecameUnknown(after, r), gone)
  }

  lemma GoneSplits(after: Document, gone: seq<Record>, id: string)
    ensures Times(id, RecordIds(gone)) == Times(id, RecordIds(Lost(after, gone))) + Times(id, RecordIds(Resolved(after, gone)))
  {
    FilterSplits((r: Record) => BecameUnknown(after, r), (r: Record) => !BecameUnknown(after, r), (r: Record) => r.id, gone, id);
  }

  /** How the counts of a difference add up over one of the two ID projections. */
  lemma PairCounts(after: Document, f: Change -> string, common: seq<Change>, pairs: seq<Change>, id: string)
    ensures Times(id, Map(f, common)) + Times(id, Map(f, pairs))
            == Times(id, Map(f, Unaltered(common))) + Times(id, Map(f, Altered(common) + Having(after, Same, pairs)))
               + Times(id, Map(f, Having(after, Worse, pairs))) + Times(id, Map(f, Having(after, Better, pairs)))
               + Times(id, Map(f, Having(after, ToUnknown, pairs)))
  {
    CommonSplits(f, common, id);
    VerdictsSplit(after, f, pairs, id);
    MapConcat(f, Altered(common), Having(after, Same, pairs));
    TimesConcat(id, Map(f, Altered(common)), Map(f, Having(after, Same, pairs)));
  }

  lemma OnceInUnion(id: string, s: set<string>, t: set<string>)
    ensures multiset(s * t)[id] + multiset(s - t)[id] == if id in s then 1 else 0
  {
  }

  /** Every earlier ID is counted exactly once, as unchanged, changed, worsened,
      improved, unknown or resolved, and nothing else is counted. */
  lemma BeforeIsPartitioned(before: Document, after: Document, id: string)
    ensures TimesBefore(id, UnchangedOf(before, after), CompareOf(before, after))
            == if id in FindingMap(before.findings) then 1 else 0
  {
    var b, a := FindingMap(before.findings), FindingMap(after.findings);
    var pairs, common := Pairs(b, a), Common(b, a);
    var gone := Remaining(Only(b, a), PairedBefore(pairs));
    hide Pairs, Common, Having, Only, FindingMap, Map, Filter, BecameUnknown, SortedKeys, Times;
    FindingMapKeyed(before.findings);
    FindingMapKeyed(after.findings);
    CommonIds(b, a);
    TimesOfSet(id, b.Keys * a.Keys);
    OnlySplits(b, a, id);
    PairCounts(after, (c: Change) => c.before.id, common, pairs, id);
    UnknownIds(after, pairs, gone);
    TimesConcat(id, BeforeIds(Having(after, ToUnknown, pairs)), RecordIds(Lost(after, gone)));
    GoneSplits(after, gone, id);
    OnceInUnion(id, b.Keys, a.Keys);
  }

  lemma TimesOfSet(id: string, s: set<string>)
    ensures Times(id, SortedKeys(s)) == multiset(s)[id]
  {
  }

  /** How often a later ID is counted by a difference. */
  ghost function TimesAfter(id: string, same: seq<Change>, d: Difference): nat
  {
    Times(id, AfterIds(same)) + Times(id, AfterIds(d.changed)) + Times(id, AfterIds(d.worsened))
    + Times(id, AfterIds(d.improved)) + Times(id, UnknownAfterIds(d.unknown)) + Times(id, RecordIds(d.appeared))
  }

  /** Every later ID is either new or the later side of exactly one counted pair. */
  lemma AfterIsPartitioned(before: Document, after: Document, id: string)
    ensures TimesAfter(id, UnchangedOf(before, after), CompareOf(before, after))
            == if id in FindingMap(after.findings) then 1 else 0
  {
    var b, a := FindingMap(before.findings), FindingMap(after.findings);
    var pairs, common := Pairs(b, a), Common(b, a);
    var gone := Remaining(Only(b, a), PairedBefore(pairs));
    hide Pairs, Common, Having, Only, FindingMap, Map, Filter, BecameUnknown, SortedKeys, Times, PairedBefore, PairedAfter;
    FindingMapKeyed(before.findings);
    FindingMapKeyed(after.findings);
    CommonIds(b, a);
    TimesOfSet(id, b.Keys * a.Keys);
    OnlySplits(a, b, id);
    PairsFlip(b, a);
    PairedFlip(pairs);
    PairCounts(after, (c: Change) => c.after.id, common, pairs, id);
    UnknownIds(after, pairs, gone);
    OnceInUnion(id, a.Keys, b.Keys);
    assert a.Keys * b.Keys == b.Keys * a.Keys;
  }

  lemma SameTimesSameLength<T(!new)>(s: seq<T>, t: seq<T>)
    requires forall x :: Times(x, s) == Times(x, t)
    ensures |s| == |t|
  {
    assert |multiset(s)| == |s| && |multiset(t)| == |t|;
    assert multiset(s) == multiset(t) by {
      assert forall x :: multiset(s)[x] == Times(x, s) && multiset(t)[x] == Times(x, t);
    }
  }

  lemma RemainingCount(b: map<string, Record>, a: map<string, Record>)
    requires KeyedById(b)
    ensures |b.Keys - a.Keys| == |Pairs(b, a)| + |Remaining(Only(b, a), PairedBefore(Pairs(b, a)))|
  {
    var pairs, only := Pairs(b, a), Only(b, a);
    var paired := PairedBefore(pairs);
    var taken := Filter((r: Record) => r.id in paired, only);
    hide Pairs, Only, Times, PairedBefore, SortedKeys;
    FilterSplits((r: Record) => r.id in paired, (r: Record) => r.id !in paired, (r: Record) => r.id, only, "");
    OnlyIds(b, a);
    SortedKeysFacts(b.Keys - a.Keys);
    forall id ensures Times(id, RecordIds(taken)) == Times(id, BeforeIds(pairs)) {
      PairedAreTaken(b, a, id);
    }
    SameTimesSameLength(RecordIds(taken), BeforeIds(pairs));
  }

  /** The printed counts add up to the number of findings on either side. */
  lemma CountsAddUp(before: Document, after: Document)
    ensures var d := CompareOf(before, after);
            var paired := d.unchangedCount + |d.changed| + |d.worsened| + |d.improved|;
            && |FindingMap(before.findings)| == paired + |d.unknown| + |d.resolved|
            && |FindingMap(after.findings)| == paired + |UnknownAfterIds(d.unknown)| + |d.appeared|
  {
    var b, a := FindingMap(before.findings), FindingMap(after.findings);
    var pairs, common := Pairs(b, a), Common(b, a);
    var gone := Remaining(Only(b, a), PairedBefore(pairs));
    var counted := CompareOf(before, after);
    hide Pairs, Common, Having, Only, FindingMap, BecameUnknown, SortedKeys, Times, PairedBefore, PairedAfter, Filter;
    FindingMapKeyed(before.findings);
    FindingMapKeyed(after.findings);
    RemainingCount(b, a);
    RemainingCount(a, b);
    PairsFlip(b, a);
    PairedFlip(pairs);
    CommonIds(b, a);
    SortedKeysFacts(b.Keys * a.Keys);
    CommonSplits((c: Change) => c.before.id, common, "");
    VerdictsSplit(after, (c: Change) => c.before.id, pairs, "");
    UnknownIds(after, pairs, gone);
    LostAndResolved(after, gone);
    KeyCounts(b, a);
    KeyCounts(a, b);
    assert a.Keys * b.Keys == b.Keys * a.Keys;
  }

  lemma KeyCounts(b: map<string, Record>, a: map<string, Record>)
    ensures |b| == |b.Keys * a.Keys| + |b.Keys - a.Keys|
  {
  }

  lemma LostAndResolved(after: Document, gone: seq<Record>)
    ensures |gone| == |Lost(after, gone)| + |Resolved(after, gone)|
  {
    FilterSplits((r: Record) => BecameUnknown(after, r), (r: Record) => !BecameUnknown(after, r), (r: Record) => r.id, gone, "");
  }

  // ---------------------------------------------------------------------------
  // Symmetry

  ghost predicate FullyEvaluated(doc: Document)
  {
    forall r :: r in doc.findings ==> r.severity != "unavailable"
  }

  lemma NothingBecomesUnknown(after: Document, r: Record)
    requires FullyEvaluated(after)
    ensures !BecameUnknown(after, r)
  {
    FilterNone((x: Record) => x.severity == "unavailable" && x.section == r.section, after.findings);
  }

  lemma FlippedVerdict(x: Document, y: Document, c: Change)
    requires FullyEvaluated(x) && FullyEvaluated(y)
    ensures VerdictOf(y, c) != ToUnknown && VerdictOf(x, Flip(c)) != ToUnknown
    ensures VerdictOf(x, Flip(c)) == Worse <==> VerdictOf(y, c) == Better
    ensures VerdictOf(x, Flip(c)) == Better <==> VerdictOf(y, c) == Worse
    ensures VerdictOf(x, Flip(c)) == Same <==> VerdictOf(y, c) == Same
  {
    NothingBecomesUnknown(y, c.before);
    NothingBecomesUnknown(x, c.after);
  }

  function Opposite(v: Verdict): Verdict
  {
    match v
    case Worse => Better
    case Better => Worse
    case _ => v
  }

  lemma FlippedHaving(x: Document, y: Document, v: Verdict, pairs: seq<Change>)
    requires FullyEvaluated(x) && FullyEvaluated(y)
    ensures Having(x, v, Map(Flip, pairs)) == Map(Flip, Having(y, Opposite(v), pairs))
  {
    hide VerdictOf, FullyEvaluated;
    forall c ensures (VerdictOf(x, Flip(c)) == v) == (VerdictOf(y, c) == Opposite(v)) {
      FlippedVerdict(x, y, c);
    }
    FilterMap((c: Change) => VerdictOf(x, c) == v, (c: Change) => VerdictOf(y, c) == Opposite(v), Flip, pairs);
  }

  lemma CommonFlip(b: map<string, Record>, a: map<string, Record>)
    ensures Common(a, b) == Map(Flip, Common(b, a))
    ensures Altered(Common(a, b)) == Map(Flip, Altered(Common(b, a)))
  {
    assert a.Keys * b.Keys == b.Keys * a.Keys;
    MapMap(Flip, (id: string) => Change(Lookup(b, id), Lookup(a, id)), (id: string) => Change(Lookup(a, id), Lookup(b, id)),
           SortedKeys(b.Keys * a.Keys));
    FilterMap((c: Change) => !StableEqual(c.before, c.after), (c: Change) => !StableEqual(c.before, c.after), Flip, Common(b, a));
  }

  lemma NothingLost(after: Document, gone: seq<Record>)
    requires FullyEvaluated(after)
    ensures Resolved(after, gone) == gone && UnknownGone(after, gone) == []
  {
    forall r ensures !BecameUnknown(after, r) { NothingBecomesUnknown(after, r); }
    FilterAll((r: Record) => !BecameUnknown(after, r), gone);
    FilterNone((r: Record) => BecameUnknown(after, r), gone);
  }

  lemma NoUnknownChanges(after: Document, pairs: seq<Change>)
    requires FullyEvaluated(after)
    ensures UnknownChanges(after, pairs) == []
  {
    forall c ensures VerdictOf(after, c) != ToUnknown { NothingBecomesUnknown(after, c.before); }
    FilterNone((c: Change) => VerdictOf(after, c) == ToUnknown, pairs);
  }

  /** When both documents were fully evaluated, comparing them the other way round
      swaps new with resolved and worsened with improved. */
  lemma CompareSymmetric(x: Document, y: Document)
    requires FullyEvaluated(x) && FullyEvaluated(y)
    ensures var there, back := CompareOf(x, y), CompareOf(y, x);
            && back.appeared == there.resolved && back.resolved == there.appeared
            && back.worsened == Map(Flip, there.improved) && back.improved == Map(Flip, there.worsened)
            && back.changed == Map(Flip, there.changed)
            && there.unknown == [] && back.unknown == [] && back.unchangedCount == there.unchangedCount
  {
    var b, a := FindingMap(x.findings), FindingMap(y.findings);
    var pairs, common := Pairs(b, a), Common(b, a);
    var there, back := CompareOf(x, y), CompareOf(y, x);
    hide Pairs, Common, Having, Only, FindingMap, PairedBefore, PairedAfter, Map, Filter, FullyEvaluated, Resolved, UnknownGone,
      UnknownChanges, Altered, Remaining;
    PairsFlip(b, a);
    PairedFlip(pairs);
    PairsFlip(a, b);
    PairedFlip(Pairs(a, b));
    CommonFlip(b, a);
    FlippedHaving(x, y, Worse, pairs);
    FlippedHaving(x, y, Better, pairs);
    FlippedHaving(x, y, Same, pairs);
    NothingLost(y, Remaining(Only(b, a), PairedBefore(pairs)));
    NothingLost(x, Remaining(Only(a, b), PairedBefore(Pairs(a, b))));
    NoUnknownChanges(y, pairs);
    NoUnknownChanges(x, Pairs(a, b));
    MapConcat(Flip, Altered(common), Having(y, Same, pairs));
  }
}
