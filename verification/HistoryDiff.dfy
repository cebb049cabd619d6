/** The difference against a history: bridging samples that could not evaluate a
    finding, and what a webhook is told. */
module HistoryDiff {
  import opened Seqs
  import opened Model
  import opened Report
  import opened ReportLaws

  datatype Known = Known(before: Record, unknownSamples: nat, at: string)

  /** `base` keeps the pairs of the plain difference; the program appends the
      bridged pairs to the same lists, here they are kept apart. */
  datatype HistoryDifference = HistoryDifference(base: Difference, worsened: seq<Bridge>, improved: seq<Bridge>,
                                                 reconfirmed: seq<Bridge>, changed: seq<Bridge>)

  // ---------------------------------------------------------------------------
  // lastKnownFinding

  function KnownIn(doc: Document, key: string): Option<Record>
  {
    var correlated := Correlation(doc.findings);
    if key in correlated && correlated[key].severity != "unavailable" then Some(correlated[key]) else None
  }

  function Scan(previous: seq<Document>, current: Record, unknownSamples: nat): Option<Known>
  {
    if previous == [] then None
    else
      var doc := previous[|previous| - 1];
      var known := KnownIn(doc, Key(current));
      if known.Some? then
        if unknownSamples > 0 then Some(Known(known.value, unknownSamples, doc.generatedAt)) else None
      else if EvaluationUnavailable(doc, current) then Scan(previous[..|previous| - 1], current, unknownSamples + 1)
      else None
  }

  function LastKnown(previous: seq<Document>, current: Record): Option<Known>
  {
    if Key(current) == "" || current.section == "" then None else Scan(previous, current, 0)
  }

  method LastKnownFinding(previous: seq<Document>, current: Record) returns (result: Option<Known>)
    ensures result == LastKnown(previous, current)
  {
    if Key(current) == "" || current.section == "" {
      return None;
    }
    var unknownSamples := 0;
    var index := |previous|;
    assert previous[..index] == previous;
    while index > 0
      invariant 0 <= index <= |previous|
      invariant Scan(previous[..index], current, unknownSamples) == Scan(previous, current, 0)
    {
      assert previous[..index][..index - 1] == previous[..index - 1];
      index := index - 1;
      var document := previous[index];
      var correlated := CorrelationMap(document.findings);
      if Key(current) in correlated && correlated[Key(current)].severity != "unavailable" {
        if unknownSamples > 0 {
          return Some(Known(correlated[Key(current)], unknownSamples, document.generatedAt));
        }
        return None;
      }
      if !EvaluationUnavailable(document, current) {
        return None;
      }
      unknownSamples := unknownSamples + 1;
    }
    return None;
  }

  /** The sample k steps before the newest one. */
  function Back(previous: seq<Document>, k: nat): Document
    requires k < |previous|
  {
    previous[|previous| - 1 - k]
  }

  ghost predicate BlindSample(doc: Document, current: Record)
  {
    KnownIn(doc, Key(current)) == None && EvaluationUnavailable(doc, current)
  }

  /** The newest k samples are blind and the one before them knows the record. */
  ghost predicate FoundAfter(previous: seq<Document>, current: Record, known: Known, k: int)
  {
    && 0 <= k < |previous|
    && (forall j :: 0 <= j < k ==> BlindSample(Back(previous, j), current))
    && KnownIn(Back(previous, k), Key(current)) == Some(known.before)
    && Back(previous, k).generatedAt == known.at
  }

  lemma FoundAfterStep(previous: seq<Document>, current: Record, known: Known, k: int)
    requires previous != [] && k > 0
    ensures FoundAfter(previous, current, known, k)
            <==> BlindSample(Back(previous, 0), current) && FoundAfter(previous[..|previous| - 1], current, known, k - 1)
  {
    hide BlindSample, KnownIn;
    var rest := previous[..|previous| - 1];
    forall j | 0 <= j < |rest| ensures Back(rest, j) == Back(previous, j + 1) {
    }
    if BlindSample(Back(previous, 0), current) && FoundAfter(rest, current, known, k - 1) {
      forall j | 0 <= j < k ensures BlindSample(Back(previous, j), current) {
        if j > 0 {
          assert BlindSample(Back(rest, j - 1), current);
        }
      }
    }
    if FoundAfter(previous, current, known, k) {
      forall j | 0 <= j < k - 1 ensures BlindSample(Back(rest, j), current) {
        assert BlindSample(Back(previous, j + 1), current);
      }
    }
  }

  lemma {:induction false} ScanCharacterised(previous: seq<Document>, current: Record, skipped: nat, known: Known)
    ensures Scan(previous, current, skipped) == Some(known)
            <==> known.unknownSamples > 0 && FoundAfter(previous, current, known, known.unknownSamples - skipped)
  {
    hide EvaluationUnavailable, KnownIn, FoundAfter;
    if previous == [] {
      assert !FoundAfter(previous, current, known, known.unknownSamples - skipped) by { EmptyHistory(current, known, known.unknownSamples - skipped); }
    } else {
      var k := known.unknownSamples - skipped;
      ScanCharacterised(previous[..|previous| - 1], current, skipped + 1, known);
      if k > 0 {
        FoundAfterStep(previous, current, known, k);
        FoundNow(previous, current, known, k);
      } else {
        FoundNow(previous, current, known, k);
        FoundNow(previous[..|previous| - 1], current, known, k - 1);
      }
    }
  }

  lemma EmptyHistory(current: Record, known: Known, k: int)
    ensures !FoundAfter([], current, known, k)
  {
  }

  lemma FoundNow(previous: seq<Document>, current: Record, known: Known, k: int)
    ensures k < 0 ==> !FoundAfter(previous, current, known, k)
    ensures k == 0 ==> (FoundAfter(previous, current, known, k) <==>
                        previous != [] && KnownIn(Back(previous, 0), Key(current)) == Some(known.before)
                        && Back(previous, 0).generatedAt == known.at)
  {
  }

  /** The last known record is found exactly when the newest k >= 1 samples were
      blind to the finding and the sample before them knows it. */
  lemma LastKnownCharacterised(previous: seq<Document>, current: Record, known: Known)
    ensures LastKnown(previous, current) == Some(known)
            <==> Key(current) != "" && current.section != "" && known.unknownSamples > 0
                 && FoundAfter(previous, current, known, known.unknownSamples)
  {
    ScanCharacterised(previous, current, 0, known);
  }

  // ---------------------------------------------------------------------------
  // CompareHistory

  function BridgeTo(previous: seq<Document>, after: Record): Option<Bridge>
  {
    if after.severity == "unavailable" then None
    else
      match LastKnown(previous, after)
      case None => None
      case Some(known) => Some(Bridge(known.before, after, known.unknownSamples, known.at))
  }

  datatype Bridged = Worsened | Improved | Reconfirmed | Modified

  function Outcome(b: Bridge): Bridged
  {
    var beforeWeight, afterWeight := SeverityWeight(b.before.severity), SeverityWeight(b.after.severity);
    if afterWeight > beforeWeight then Worsened
    else if afterWeight < beforeWeight then Improved
    else if b.before.id == b.after.id then Reconfirmed
    else Modified
  }

  function Bridges(previous: seq<Document>, outcome: Bridged, appeared: seq<Record>): seq<Bridge>
  {
    if appeared == [] then []
    else
      var rest := Bridges(previous, outcome, appeared[..|appeared| - 1]);
      var bridge := BridgeTo(previous, appeared[|appeared| - 1]);
      if bridge.Some? && Outcome(bridge.value) == outcome then rest + [bridge.value] else rest
  }

  function StillNew(previous: seq<Document>, appeared: seq<Record>): seq<Record>
  {
    Filter((r: Record) => BridgeTo(previous, r).None?, appeared)
  }

  function CompareHistoryOf(previous: seq<Document>, current: Document): HistoryDifference
    requires previous != []
  {
    var plain := CompareOf(previous[|previous| - 1], current);
    HistoryDifference(plain.(appeared := StillNew(previous, plain.appeared)),
                      Bridges(previous, Worsened, plain.appeared), Bridges(previous, Improved, plain.appeared),
                      Bridges(previous, Reconfirmed, plain.appeared), Bridges(previous, Modified, plain.appeared))
  }

  /** Comparing against an empty history is the error of the program. */
  method CompareHistory(previous: seq<Document>, current: Document) returns (result: Option<HistoryDifference>)
    ensures result == if previous == [] then None else Some(CompareHistoryOf(previous, current))
  {
    if |previous| == 0 {
      return None;
    }
    var plain := Compare(previous[|previous| - 1], current);
    var remaining, worsened, improved, reconfirmed, changed := [], [], [], [], [];
    var appeared := plain.appeared;
    hide LastKnown, Outcome;
    for i := 0 to |appeared|
      invariant remaining == StillNew(previous, appeared[..i])
      invariant worsened == Bridges(previous, Worsened, appeared[..i])
      invariant improved == Bridges(previous, Improved, appeared[..i])
      invariant reconfirmed == Bridges(previous, Reconfirmed, appeared[..i])
      invariant changed == Bridges(previous, Modified, appeared[..i])
    {
      PrefixStep(appeared, i);
      var after := appeared[i];
      if after.severity == "unavailable" {
        remaining := remaining + [after];
        continue;
      }
      var known := LastKnownFinding(previous, after);
      if known.None? {
        remaining := remaining + [after];
        continue;
      }
      var pair := Bridge(known.value.before, after, known.value.unknownSamples, known.value.at);
      match Outcome(pair) {
        case Worsened => worsened := worsened + [pair];
        case Improved => improved := improved + [pair];
        case Reconfirmed => reconfirmed := reconfirmed + [pair];
        case Modified => changed := changed + [pair];
      }
    }
    assert appeared[..|appeared|] == appeared;
    return Some(HistoryDifference(plain.(appeared := remaining), worsened, improved, reconfirmed, changed));
  }

  // ---------------------------------------------------------------------------
  // BuildPayload: whether there is a payload, and which findings it names

  datatype Payload = Payload(newIssues: seq<Record>, worsenedToIssue: seq<Record>)

  predicate Notifies(r: Record) { r.severity == "issue" && !r.acknowledged }

  function WorsenedAfter(d: HistoryDifference): seq<Record>
  {
    Map((c: Change) => c.after, d.base.worsened) + Map((b: Bridge) => b.after, d.worsened)
  }

  function PayloadOf(d: HistoryDifference): Option<Payload>
  {
    var newIssues, worsened := Filter(Notifies, d.base.appeared), Filter(Notifies, WorsenedAfter(d));
    if |newIssues| == 0 && |worsened| == 0 then None else Some(Payload(newIssues, worsened))
  }

  /** A payload names exactly the unacknowledged Issues that are new, or the later side
      of a worsened pair or bridge; without any there is none. */
  lemma PayloadExactly(d: HistoryDifference, r: Record)
    ensures PayloadOf(d).Some? <==> exists x :: IsNewIssue(d, x) || IsWorsenedIssue(d, x)
    ensures PayloadOf(d).Some? ==> && (r in PayloadOf(d).value.newIssues <==> IsNewIssue(d, r))
                                   && (r in PayloadOf(d).value.worsenedToIssue <==> IsWorsenedIssue(d, r))
  {
    var newIssues, worsened := Filter(Notifies, d.base.appeared), Filter(Notifies, WorsenedAfter(d));
    FilterMembers(Notifies, d.base.appeared);
    FilterMembers(Notifies, WorsenedAfter(d));
    MapMembers((c: Change) => c.after, d.base.worsened);
    MapMembers((b: Bridge) => b.after, d.worsened);
    hide Filter, Map;
    forall x ensures x in newIssues <==> IsNewIssue(d, x) {}
    forall x ensures x in worsened <==> IsWorsenedIssue(d, x) {}
    if |newIssues| > 0 {
      assert newIssues[0] in newIssues;
    }
    if |worsened| > 0 {
      assert worsened[0] in worsened;
    }
  }

  ghost predicate IsNewIssue(d: HistoryDifference, r: Record)
  {
    r.severity == "issue" && !r.acknowledged && r in d.base.appeared
  }

  ghost predicate IsWorsenedIssue(d: HistoryDifference, r: Record)
  {
    && r.severity == "issue" && !r.acknowledged
    && ((exists c :: c in d.base.worsened && c.after == r) || (exists b :: b in d.worsened && b.after == r))
  }

  lemma PayloadMembers(d: HistoryDifference)
    ensures PayloadOf(d).Some? <==> exists x :: IsNewIssue(d, x) || IsWorsenedIssue(d, x)
    ensures PayloadOf(d).Some? ==> && (forall r :: r in PayloadOf(d).value.newIssues <==> IsNewIssue(d, r))
                                   && (forall r :: r in PayloadOf(d).value.worsenedToIssue <==> IsWorsenedIssue(d, r))
  {
    hide PayloadOf, IsNewIssue, IsWorsenedIssue;
    forall r
      ensures PayloadOf(d).Some? ==> && (r in PayloadOf(d).value.newIssues <==> IsNewIssue(d, r))
                                     && (r in PayloadOf(d).value.worsenedToIssue <==> IsWorsenedIssue(d, r))
    {
      PayloadExactly(d, r);
    }
    PayloadExactly(d, NO_RECORD);
  }

  method BuildPayload(d: HistoryDifference) returns (payload: Option<Payload>)
    ensures payload.Some? <==> exists x :: IsNewIssue(d, x) || IsWorsenedIssue(d, x)
    ensures payload.Some? ==> && (forall r :: r in payload.value.newIssues <==> IsNewIssue(d, r))
                              && (forall r :: r in payload.value.worsenedToIssue <==> IsWorsenedIssue(d, r))
    ensures payload == PayloadOf(d)
  {
    PayloadMembers(d);
    hide IsNewIssue, IsWorsenedIssue;
    var newIssues := [];
    var appeared := d.base.appeared;
    for i := 0 to |appeared|
      invariant newIssues == Filter(Notifies, appeared[..i])
    {
      PrefixStep(appeared, i);
      if Notifies(appeared[i]) {
        newIssues := newIssues + [appeared[i]];
      }
    }
    assert appeared[..|appeared|] == appeared;
    var worsened := [];
    var afters := WorsenedAfter(d);
    for i := 0 to |afters|
      invariant worsened == Filter(Notifies, afters[..i])
    {
      PrefixStep(afters, i);
      if Notifies(afters[i]) {
        worsened := worsened + [afters[i]];
      }
    }
    assert afters[..|afters|] == afters;
    if |newIssues| == 0 && |worsened| == 0 {
      return None;
    }
    return Some(Payload(newIssues, worsened));
  }

  // ---------------------------------------------------------------------------
  // Conservation

  function Afters(bridges: seq<Bridge>): seq<Record> { Map((b: Bridge) => b.after, bridges) }

  lemma BridgesStep(previous: seq<Document>, outcome: Bridged, appeared: seq<Record>)
    ensures Bridges(previous, outcome, []) == [] && StillNew(previous, []) == []
    ensures appeared != [] ==>
              var init, bridge := appeared[..|appeared| - 1], BridgeTo(previous, appeared[|appeared| - 1]);
              && Bridges(previous, outcome, appeared)
                 == Bridges(previous, outcome, init) + (if bridge.Some? && Outcome(bridge.value) == outcome then [bridge.value] else [])
              && StillNew(previous, appeared) == StillNew(previous, init) + (if bridge.None? then [appeared[|appeared| - 1]] else [])
  {
  }

  lemma BridgeKeepsRecord(previous: seq<Document>, r: Record)
    ensures BridgeTo(previous, r).Some? ==> BridgeTo(previous, r).value.after == r
  {
  }

  lemma TimesSingle<T>(x: T, s: seq<T>, y: T)
    ensures Times(x, s + [y]) == Times(x, s) + if x == y then 1 else 0
    ensures Times(x, s + []) == Times(x, s) && Times(x, []) == 0
  {
  }

  /** Bridging moves each new finding to exactly one list and loses none. */
  lemma {:induction false} BridgingConserves(previous: seq<Document>, appeared: seq<Record>, r: Record)
    ensures Times(r, appeared)
            == Times(r, StillNew(previous, appeared)) + Times(r, Afters(Bridges(previous, Worsened, appeared)))
               + Times(r, Afters(Bridges(previous, Improved, appeared)))
               + Times(r, Afters(Bridges(previous, Reconfirmed, appeared)))
               + Times(r, Afters(Bridges(previous, Modified, appeared)))
    ensures |appeared|
            == |StillNew(previous, appeared)| + |Bridges(previous, Worsened, appeared)| + |Bridges(previous, Improved, appeared)|
               + |Bridges(previous, Reconfirmed, appeared)| + |Bridges(previous, Modified, appeared)|
  {
    hide Times, Bridges, StillNew, BridgeTo, Outcome, Map;
    var after := (b: Bridge) => b.after;
    forall outcome { BridgesStep(previous, outcome, appeared); }
    TimesOfNothing(after, r);
    TimesSingle(r, [], r);
    if appeared != [] {
      var init, last := appeared[..|appeared| - 1], appeared[|appeared| - 1];
      assert appeared == init + [last];
      BridgingConserves(previous, init, r);
      BridgeKeepsRecord(previous, last);
      TimesSingle(r, init, last);
      TimesSingle(r, StillNew(previous, init), last);
      var bridge := BridgeTo(previous, last);
      forall outcome
        ensures Times(r, Afters(Bridges(previous, outcome, appeared)))
                == Times(r, Afters(Bridges(previous, outcome, init)))
                   + if bridge.Some? && Outcome(bridge.value) == outcome && last == r then 1 else 0
      {
        assert Bridges(previous, outcome, init) + [] == Bridges(previous, outcome, init);
        if bridge.Some? {
          MapTimes(after, Bridges(previous, outcome, init), bridge.value, r);
        }
      }
      assert StillNew(previous, init) + [] == StillNew(previous, init);
    }
  }

  lemma {:induction false} BridgesMembers(previous: seq<Document>, outcome: Bridged, appeared: seq<Record>)
    ensures forall b :: b in Bridges(previous, outcome, appeared)
              <==> b.after in appeared && BridgeTo(previous, b.after) == Some(b) && Outcome(b) == outcome
  {
    hide LastKnown, Outcome, BridgeTo, Bridges;
    BridgesStep(previous, outcome, appeared);
    if appeared != [] {
      var init, last := appeared[..|appeared| - 1], appeared[|appeared| - 1];
      BridgesMembers(previous, outcome, init);
      BridgeKeepsRecord(previous, last);
      assert appeared == init + [last];
    }
  }

  // ---------------------------------------------------------------------------
  // Whole runs: a finding that is only interrupted by unknown samples

  /** The sample reports the finding, alone with its code and resource. */
  ghost predicate Reports(doc: Document, f: Record)
  {
    && (exists r :: r in doc.findings && SameFinding(r, f))
    && |WithKey(Key(f), doc.findings)| == 1
    && (forall r :: r in doc.findings && r.id == f.id ==> Key(r) == Key(f))
  }

  /** Same ID, and what the ID and the producing rule determine. */
  predicate SameFinding(r: Record, f: Record)
  {
    r.id == f.id && Key(r) == Key(f) && r.severity == f.severity && r.section == f.section && r.ruleId == f.ruleId
  }

  /** The sample could not evaluate the finding and says nothing else about its
      code and resource. */
  ghost predicate Misses(doc: Document, f: Record)
  {
    && EvaluationUnavailable(doc, f)
    && forall r :: r in doc.findings ==> r.id != f.id && Key(r) != Key(f)
  }

  ghost predicate Tracked(f: Record)
  {
    f.id != "" && Key(f) != "" && f.section != "" && f.severity != "unavailable"
  }

  lemma ReportedRecord(doc: Document, f: Record) returns (r: Record)
    requires Reports(doc, f) && Tracked(f)
    ensures r in doc.findings && SameFinding(r, f)
    ensures forall x :: x in doc.findings && (x.id == f.id || Key(x) == Key(f)) ==> x == r
    ensures FindingMap(doc.findings).Keys >= {f.id} && FindingMap(doc.findings)[f.id] == r
    ensures KnownIn(doc, Key(f)) == Some(r)
  {
    r := OnlyReport(doc, f);
    hide Reports, Tracked, Key, FindingMap, KnownIn;
    FindingMapKeyed(doc.findings);
    ReportedIsKnown(doc, f, r);
  }

  lemma OnlyReport(doc: Document, f: Record) returns (r: Record)
    requires Reports(doc, f) && Tracked(f)
    ensures r in doc.findings && SameFinding(r, f) && WithKey(Key(f), doc.findings) == [r]
    ensures forall x :: x in doc.findings && (x.id == f.id || Key(x) == Key(f)) ==> x == r
    ensures f.id != "" && Key(f) != "" && r.severity != "unavailable"
  {
    hide Key;
    r :| r in doc.findings && SameFinding(r, f);
    var same := WithKey(Key(f), doc.findings);
    FilterMembers((x: Record) => Key(x) == Key(f), doc.findings);
    assert r in same;
    assert same == [r];
    forall x | x in doc.findings && (x.id == f.id || Key(x) == Key(f)) ensures x == r {
      assert x in same;
    }
  }

  lemma ReportedIsKnown(doc: Document, f: Record, r: Record)
    requires r in doc.findings && SameFinding(r, f) && WithKey(Key(f), doc.findings) == [r]
    requires Key(f) != "" && r.severity != "unavailable"
    ensures KnownIn(doc, Key(f)) == Some(r)
  {
    hide Key;
    assert Key(r) in KeysOf(doc.findings);
    CorrelationMembers(doc.findings, Key(f));
    hide WithKey, KeysOf, Correlation;
  }

  lemma MissedRecord(doc: Document, f: Record)
    requires Misses(doc, f) && Tracked(f)
    ensures f.id !in FindingMap(doc.findings) && KnownIn(doc, Key(f)) == None
  {
    FindingMapKeyed(doc.findings);
    CorrelationMembers(doc.findings, Key(f));
  }

  lemma SameFindingSameEvaluation(doc: Document, r: Record, f: Record)
    requires SameFinding(r, f)
    ensures EvaluationUnavailable(doc, r) == EvaluationUnavailable(doc, f)
  {
  }

  /** After k >= 1 unknown samples, the last known record is the reported one. */
  lemma BridgedBack(previous: seq<Document>, f: Record, k: nat, r: Record) returns (b: Bridge)
    requires Tracked(f) && 1 <= k < |previous| && SameFinding(r, f)
    requires Reports(Back(previous, k), f)
    requires forall j :: 0 <= j < k ==> Misses(Back(previous, j), f)
    ensures BridgeTo(previous, r) == Some(b) && b.after == r && b.unknownSamples == k
    ensures SameFinding(b.before, f) && Outcome(b) == Reconfirmed
    ensures b.lastKnownAt == Back(previous, k).generatedAt
  {
    var doc := Back(previous, k);
    var before := ReportedRecord(doc, f);
    var known := Known(before, k, doc.generatedAt);
    forall j | 0 <= j < k ensures BlindSample(Back(previous, j), r) {
      assert Misses(Back(previous, j), f);
      MissedRecord(Back(previous, j), f);
      SameFindingSameEvaluation(Back(previous, j), r, f);
    }
    LastKnownCharacterised(previous, r, known);
    b := Bridge(before, r, k, doc.generatedAt);
  }

  /** The webhook payload names a finding with this ID. */
  ghost predicate Named(d: HistoryDifference, id: string)
  {
    PayloadOf(d).Some? && exists r :: (r in PayloadOf(d).value.newIssues || r in PayloadOf(d).value.worsenedToIssue) && r.id == id
  }

  /** A named finding is absent from the newest sample, and it is new without a
      bridge, worsened across a bridge, or the later side of a pair. */
  lemma NamedMeansNews(previous: seq<Document>, current: Document, id: string) returns (r: Record)
    requires previous != [] && Named(CompareHistoryOf(previous, current), id)
    ensures var b, a := FindingMap(previous[|previous| - 1].findings), FindingMap(current.findings);
            && r.id == id && r in Only(a, b) && Notifies(r)
            && (|| (BridgeTo(previous, r).Some? ==> Outcome(BridgeTo(previous, r).value) == Worsened)
                || exists c :: c in Pairs(b, a) && c.after == r)
  {
    var before, d := previous[|previous| - 1], CompareHistoryOf(previous, current);
    var b, a := FindingMap(before.findings), FindingMap(current.findings);
    var plain, payload := CompareOf(before, current), PayloadOf(d).value;
    r :| (r in payload.newIssues || r in payload.worsenedToIssue) && r.id == id;
    hide Pairs, Only, BridgeTo, Outcome, FindingMap;
    FilterMembers(Notifies, d.base.appeared);
    FilterMembers(Notifies, WorsenedAfter(d));
    var paired := PairedAfter(Pairs(b, a));
    FilterMembers((x: Record) => x.id !in paired, Only(a, b));
    FilterMembers((x: Record) => BridgeTo(previous, x).None?, plain.appeared);
    FilterMembers((c: Change) => VerdictOf(current, c) == Worse, Pairs(b, a));
    MapMembers((c: Change) => c.after, d.base.worsened);
    MapMembers((x: Bridge) => x.after, d.worsened);
    BridgesMembers(previous, Worsened, plain.appeared);
    PairsFacts(b, a);
  }

  /** How many samples before position i the newest report of the finding is. */
  ghost function GapBefore(samples: seq<Document>, f: Record, i: nat): nat
    requires 0 < i <= |samples|
  {
    if i == 1 || Reports(samples[i - 1], f) then 0 else 1 + GapBefore(samples, f, i - 1)
  }

  lemma {:induction false} GapIsBlind(samples: seq<Document>, f: Record, i: nat)
    requires 0 < i <= |samples| && Reports(samples[0], f)
    requires forall j :: 0 <= j < i ==> Reports(samples[j], f) || Misses(samples[j], f)
    ensures var k := GapBefore(samples, f, i);
            && k < i && Reports(samples[i - 1 - k], f) && forall j :: i - k <= j < i ==> Misses(samples[j], f)
  {
    hide Reports, Misses;
    if i > 1 && !Reports(samples[i - 1], f) {
      GapIsBlind(samples, f, i - 1);
    }
  }

  /** A reported finding that the newest k >= 1 samples missed comes back as
      reconfirmed, with the number of unknown samples. */
  lemma ReportedAgain(previous: seq<Document>, current: Document, f: Record, k: nat) returns (b: Bridge)
    requires Tracked(f) && 1 <= k < |previous| && Reports(Back(previous, k), f) && Reports(current, f)
    requires forall j :: 0 <= j < k ==> Misses(Back(previous, j), f)
    ensures b in CompareHistoryOf(previous, current).reconfirmed
    ensures b.after.id == f.id && b.before.id == f.id && b.unknownSamples == k && Outcome(b) == Reconfirmed
    ensures b.after in current.findings && BridgeTo(previous, b.after) == Some(b)
  {
    hide CompareOf, BridgeTo, Outcome, Bridges, Reports, Misses, FindingMap, KnownIn, Key, Pairs, StillNew;
    var r := ReportedRecord(current, f);
    b := BridgedBack(previous, f, k, r);
    assert Misses(Back(previous, 0), f) && Back(previous, 0) == previous[|previous| - 1];
    AppearsAfterGap(previous[|previous| - 1], current, f, r);
    BridgesMembers(previous, Reconfirmed, CompareOf(previous[|previous| - 1], current).appeared);
  }

  /** A finding that the newest sample missed is new to the plain comparison. */
  lemma AppearsAfterGap(before: Document, after: Document, f: Record, r: Record)
    requires Tracked(f) && Misses(before, f) && Reports(after, f)
    requires r in after.findings && SameFinding(r, f)
    ensures r in CompareOf(before, after).appeared
    ensures forall c :: c in Pairs(FindingMap(before.findings), FindingMap(after.findings)) ==> c.after.id != f.id
  {
    var b, a := FindingMap(before.findings), FindingMap(after.findings);
    var reported := ReportedRecord(after, f);
    MissedRecord(before, f);
    FindingMapKeyed(before.findings);
    FindingMapKeyed(after.findings);
    OnlyIds(a, b);
    OnlyIds(b, a);
    PairsFacts(b, a);
    hide Pairs, Only, FindingMap, Key;
    forall c | c in Pairs(b, a) ensures c.after.id != f.id {
      assert c.before in before.findings && c.after in after.findings;
    }
    var paired := PairedAfter(Pairs(b, a));
    FilterMembers((x: Record) => x.id !in paired, Only(a, b));
  }

  /** What keeps a finding out of the payload. */
  lemma NoNews(previous: seq<Document>, current: Document, id: string)
    requires previous != []
    requires var b, a := FindingMap(previous[|previous| - 1].findings), FindingMap(current.findings);
             forall r: Record :: r.id == id && r in Only(a, b) ==>
               && BridgeTo(previous, r).Some? && Outcome(BridgeTo(previous, r).value) != Worsened
               && forall c :: c in Pairs(b, a) ==> c.after != r
    ensures !Named(CompareHistoryOf(previous, current), id)
  {
    hide BridgeTo, Outcome, Only, Pairs, FindingMap;
    if Named(CompareHistoryOf(previous, current), id) {
      var r := NamedMeansNews(previous, current, id);
      assert false;
    }
  }

  lemma KnownOrAbsentIsNoNews(previous: seq<Document>, current: Document, id: string)
    requires previous != []
    requires id in FindingMap(previous[|previous| - 1].findings) || id !in FindingMap(current.findings)
    ensures !Named(CompareHistoryOf(previous, current), id)
  {
    FindingMapKeyed(current.findings);
    OnlyIds(FindingMap(current.findings), FindingMap(previous[|previous| - 1].findings));
    hide Only, FindingMap, Named, CompareHistoryOf;
    NoNews(previous, current, id);
  }

  lemma ReportedAgainIsNoNews(previous: seq<Document>, current: Document, f: Record, k: nat)
    requires Tracked(f) && 1 <= k < |previous| && Reports(Back(previous, k), f) && Reports(current, f)
    requires forall j :: 0 <= j < k ==> Misses(Back(previous, j), f)
    ensures !Named(CompareHistoryOf(previous, current), f.id)
  {
    var before := previous[|previous| - 1];
    var b, a := FindingMap(before.findings), FindingMap(current.findings);
    hide Only, FindingMap, Named, CompareHistoryOf, Reports, Misses, BridgeTo, Outcome, CompareOf, Pairs;
    var bridge := ReportedAgain(previous, current, f, k);
    var r := ReportedRecord(current, f);
    assert Misses(Back(previous, 0), f);
    AppearsAfterGap(before, current, f, r);
    FindingMapKeyed(current.findings);
    OnlyIds(a, b);
    NoNews(previous, current, f.id);
  }

  // ---------------------------------------------------------------------------
  // The history that the program keeps

  function KeptLimit(window: int): nat
  {
    Max(1, window - 1)
  }

  function Newest(runs: seq<Document>, limit: nat): seq<Document>
  {
    if |runs| > limit then runs[|runs| - limit..] else runs
  }

  /** The newest samples that fit beside the current one in the window. */
  function Kept(runs: seq<Document>, window: int): seq<Document>
  {
    Newest(runs, KeptLimit(window))
  }

  /** The end of a watch round: the document joins the kept runs, which are cut again. */
  method KeepRun(watchRuns: seq<Document>, document: Document, window: int) returns (kept: seq<Document>)
    ensures |kept| == Min(|watchRuns| + 1, if window <= 2 then 1 else window - 1)
    ensures kept == (watchRuns + [document])[|watchRuns| + 1 - |kept|..]
    ensures kept == Kept(watchRuns + [document], window)
  {
    kept := watchRuns + [document];
    var limit := Max(1, window - 1);
    if |kept| > limit {
      kept := kept[|kept| - limit..];
    }
  }

  /** Cutting after every round keeps what cutting the whole run once would keep. */
  lemma KeptRoundByRound(runs: seq<Document>, document: Document, window: int)
    ensures Kept(Kept(runs, window) + [document], window) == Kept(runs + [document], window)
  {
    var limit := KeptLimit(window);
    if |runs| > limit {
      assert runs + [document] == runs[..|runs| - limit] + (runs[|runs| - limit..] + [document]);
    }
  }

  lemma NewestFromBack(runs: seq<Document>, limit: nat, j: nat)
    requires j < |Newest(runs, limit)|
    ensures |Newest(runs, limit)| == Min(|runs|, limit) && Back(Newest(runs, limit), j) == Back(runs, j)
  {
  }

  lemma {:induction false} BlindHistory(previous: seq<Document>, current: Record, skipped: nat)
    requires forall j :: 0 <= j < |previous| ==> BlindSample(previous[j], current)
    ensures Scan(previous, current, skipped) == None
  {
    hide KnownIn, EvaluationUnavailable;
    if previous != [] {
      BlindHistory(previous[..|previous| - 1], current, skipped + 1);
    }
  }

  /** A history in which every sample missed the finding has no bridge to it. */
  lemma ForgottenHasNoBridge(previous: seq<Document>, f: Record, r: Record)
    requires Tracked(f) && SameFinding(r, f)
    requires forall j :: 0 <= j < |previous| ==> Misses(previous[j], f)
    ensures BridgeTo(previous, r) == None
  {
    hide Misses, KnownIn, EvaluationUnavailable, Scan;
    forall j | 0 <= j < |previous| ensures BlindSample(previous[j], r) {
      MissedRecord(previous[j], f);
      MissedIsUnavailable(previous[j], f);
      SameFindingSameEvaluation(previous[j], r, f);
    }
    BlindHistory(previous, r, 0);
  }

  lemma MissedIsUnavailable(doc: Document, f: Record)
    requires Misses(doc, f)
    ensures EvaluationUnavailable(doc, f)
  {
  }

  /** A finding that the newest sample missed and that has no bridge is named
      exactly when it is an unacknowledged Issue. */
  lemma UnbridgedIsNamed(previous: seq<Document>, current: Document, f: Record, r: Record)
    requires Tracked(f) && previous != [] && Misses(previous[|previous| - 1], f) && Reports(current, f)
    requires r in current.findings && SameFinding(r, f) && BridgeTo(previous, r) == None
    ensures Named(CompareHistoryOf(previous, current), f.id) <==> Notifies(r)
  {
    var before, d := previous[|previous| - 1], CompareHistoryOf(previous, current);
    var plain := CompareOf(before, current);
    AppearsAfterGap(before, current, f, r);
    FilterMembers((x: Record) => BridgeTo(previous, x).None?, plain.appeared);
    FilterMembers(Notifies, d.base.appeared);
    assert r in StillNew(previous, plain.appeared);
    hide CompareOf, BridgeTo, Misses, Reports, StillNew, Bridges;
    if Named(d, f.id) {
      var named := NamedMeansNews(previous, current, f.id);
      OnlyReported(before, current, f, r, named);
    }
    if Notifies(r) {
      assert r in PayloadOf(d).value.newIssues;
    }
  }

  /** The only record of the current report with the finding's ID is the reported one. */
  lemma OnlyReported(before: Document, current: Document, f: Record, r: Record, named: Record)
    requires Tracked(f) && Reports(current, f) && r in current.findings && SameFinding(r, f) && named.id == f.id
    requires named in Only(FindingMap(current.findings), FindingMap(before.findings))
    ensures named == r
  {
    var reported := ReportedRecord(current, f);
    FindingMapKeyed(current.findings);
    OnlyIds(FindingMap(current.findings), FindingMap(before.findings));
    hide Only, FindingMap, Reports, Key;
  }

  /** The sample holds an unacknowledged Issue with the ID. */
  ghost predicate NotifiesIn(doc: Document, id: string)
  {
    exists r :: r in doc.findings && r.id == id && Notifies(r)
  }

  /** In a whole run every sample reports the finding or could not evaluate it. */
  ghost predicate Interrupted(samples: seq<Document>, f: Record, i: nat)
    requires i < |samples|
  {
    Tracked(f) && 0 < i && Reports(samples[0], f) && forall j :: 0 <= j <= i ==> Reports(samples[j], f) || Misses(samples[j], f)
  }

  /** Where the newest report of the finding lies in the kept history, if it does. */
  lemma GapInKept(samples: seq<Document>, f: Record, limit: nat, i: nat)
    requires i < |samples| && Interrupted(samples, f, i) && limit >= 1
    ensures var k, kept := GapBefore(samples, f, i), Newest(samples[..i], limit);
            && |kept| == Min(i, limit) && k < i
            && (forall j :: 0 <= j < k && j < |kept| ==> Misses(Back(kept, j), f))
            && (k < |kept| ==> Reports(Back(kept, k), f))
  {
    hide Reports, Misses, Tracked;
    GapIsBlind(samples, f, i);
    var k, kept := GapBefore(samples, f, i), Newest(samples[..i], limit);
    forall j | 0 <= j < |kept| ensures Back(kept, j) == samples[i - 1 - j] {
      NewestFromBack(samples[..i], limit, j);
    }
  }

  /** With any number of samples kept, an interrupted finding is named to the webhook
      again if and only if it is reported as an unacknowledged Issue and its last
      report is older than the kept samples. */
  lemma RenotifiedWithin(samples: seq<Document>, f: Record, limit: nat, i: nat)
    requires i < |samples| && Interrupted(samples, f, i) && limit >= 1
    ensures Named(CompareHistoryOf(Newest(samples[..i], limit), samples[i]), f.id)
            <==> Reports(samples[i], f) && NotifiesIn(samples[i], f.id) && GapBefore(samples, f, i) >= limit
  {
    hide Reports, Misses, Named, CompareHistoryOf, FindingMap, Key, KnownIn, GapBefore, Newest, NotifiesIn, BridgeTo, Tracked;
    var kept, k := Newest(samples[..i], limit), GapBefore(samples, f, i);
    GapInKept(samples, f, limit, i);
    assert Reports(samples[i], f) || Misses(samples[i], f);
    if !Reports(samples[i], f) {
      MissedRecord(samples[i], f);
      KnownOrAbsentIsNoNews(kept, samples[i], f.id);
    } else if k == 0 {
      assert Back(kept, 0) == kept[|kept| - 1];
      var r := ReportedRecord(kept[|kept| - 1], f);
      KnownOrAbsentIsNoNews(kept, samples[i], f.id);
    } else if k < |kept| {
      ReportedAgainIsNoNews(kept, samples[i], f, k);
    } else {
      ForgottenIsNamed(kept, samples[i], f);
    }
  }

  /** ... so with the program's window it is named again exactly after max(1, window - 1)
      or more unknown samples. */
  lemma RenotifiedExactly(samples: seq<Document>, f: Record, window: int, i: nat)
    requires i < |samples| && Interrupted(samples, f, i)
    ensures Named(CompareHistoryOf(Kept(samples[..i], window), samples[i]), f.id)
            <==> && Reports(samples[i], f) && NotifiesIn(samples[i], f.id)
                 && GapBefore(samples, f, i) >= if window <= 2 then 1 else window - 1
  {
    hide Named, CompareHistoryOf, Interrupted;
    RenotifiedWithin(samples, f, KeptLimit(window), i);
  }

  lemma ForgottenIsNamed(kept: seq<Document>, current: Document, f: Record)
    requires Tracked(f) && kept != [] && Reports(current, f)
    requires forall j :: 0 <= j < |kept| ==> Misses(Back(kept, j), f)
    ensures Named(CompareHistoryOf(kept, current), f.id) <==> NotifiesIn(current, f.id)
  {
    var r := ReportedRecord(current, f);
    hide Reports, Misses, Named, CompareHistoryOf, FindingMap, Key, KnownIn, BridgeTo;
    forall j | 0 <= j < |kept| ensures Misses(kept[j], f) {
      assert Back(kept, |kept| - 1 - j) == kept[j];
    }
    ForgottenHasNoBridge(kept, f, r);
    UnbridgedIsNamed(kept, current, f, r);
  }

  /** A finding is reported as reconfirmed if and only if it is reported after at least
      one unknown sample and its last report is still in the kept history; the number
      given is that of the unknown samples. */
  lemma ReconfirmedExactly(samples: seq<Document>, f: Record, window: int, i: nat)
    requires i < |samples| && Interrupted(samples, f, i)
    ensures (exists b :: b in CompareHistoryOf(Kept(samples[..i], window), samples[i]).reconfirmed && b.after.id == f.id)
            <==> Reports(samples[i], f) && 1 <= GapBefore(samples, f, i) < KeptLimit(window)
    ensures Reports(samples[i], f) && 1 <= GapBefore(samples, f, i) < KeptLimit(window) ==>
              exists b :: && b in CompareHistoryOf(Kept(samples[..i], window), samples[i]).reconfirmed
                          && b.after.id == f.id && b.unknownSamples == GapBefore(samples, f, i)
  {
    var kept, k := Kept(samples[..i], window), GapBefore(samples, f, i);
    GapInKept(samples, f, KeptLimit(window), i);
    assert Reports(samples[i], f) || Misses(samples[i], f);
    hide Reports, Misses, CompareHistoryOf, FindingMap, Key, KnownIn, GapBefore, Kept, BridgeTo, CompareOf;
    if !Reports(samples[i], f) {
      MissedRecord(samples[i], f);
      KnownOrAbsentIsNotReconfirmed(kept, samples[i], f.id);
    } else if k == 0 {
      assert Back(kept, 0) == kept[|kept| - 1];
      var r := ReportedRecord(kept[|kept| - 1], f);
      KnownOrAbsentIsNotReconfirmed(kept, samples[i], f.id);
    } else if k < |kept| {
      var b := ReportedAgain(kept, samples[i], f, k);
    } else {
      ForgottenIsNotReconfirmed(kept, samples[i], f);
    }
  }

  lemma KnownOrAbsentIsNotReconfirmed(previous: seq<Document>, current: Document, id: string)
    requires previous != []
    requires id in FindingMap(previous[|previous| - 1].findings) || id !in FindingMap(current.findings)
    ensures forall b :: b in CompareHistoryOf(previous, current).reconfirmed ==> b.after.id != id
  {
    var before := previous[|previous| - 1];
    var plain := CompareOf(before, current);
    var paired := PairedAfter(Pairs(FindingMap(before.findings), FindingMap(current.findings)));
    FilterMembers((x: Record) => x.id !in paired, Only(FindingMap(current.findings), FindingMap(before.findings)));
    FindingMapKeyed(current.findings);
    OnlyIds(FindingMap(current.findings), FindingMap(before.findings));
    hide FindingMap, BridgeTo, Only, Pairs;
    BridgesMembers(previous, Reconfirmed, plain.appeared);
  }

  lemma ForgottenIsNotReconfirmed(kept: seq<Document>, current: Document, f: Record)
    requires Tracked(f) && kept != [] && Reports(current, f)
    requires forall j :: 0 <= j < |kept| ==> Misses(Back(kept, j), f)
    ensures forall b :: b in CompareHistoryOf(kept, current).reconfirmed ==> b.after.id != f.id
  {
    var r := ReportedRecord(current, f);
    var before := kept[|kept| - 1];
    var plain := CompareOf(before, current);
    var paired := PairedAfter(Pairs(FindingMap(before.findings), FindingMap(current.findings)));
    FilterMembers((x: Record) => x.id !in paired, Only(FindingMap(current.findings), FindingMap(before.findings)));
    hide Reports, Misses, FindingMap, Key, KnownIn, BridgeTo, Only, Pairs;
    forall j | 0 <= j < |kept| ensures Misses(kept[j], f) {
      assert Back(kept, |kept| - 1 - j) == kept[j];
    }
    ForgottenHasNoBridge(kept, f, r);
    BridgesMembers(kept, Reconfirmed, plain.appeared);
    forall b | b in CompareHistoryOf(kept, current).reconfirmed ensures b.after.id != f.id {
      if b.after.id == f.id {
        OnlyReported(before, current, f, r, b.after);
      }
    }
  }

  /** While no gap of unknown samples outlasts the kept history, nothing is named twice. */
  lemma NeverRenotified(samples: seq<Document>, f: Record, window: int, i: nat)
    requires i < |samples| && Interrupted(samples, f, i) && GapBefore(samples, f, i) < KeptLimit(window)
    ensures !Named(CompareHistoryOf(Kept(samples[..i], window), samples[i]), f.id)
  {
    RenotifiedExactly(samples, f, window, i);
  }

  /** With the smallest window, one unknown sample is enough to be named again. */
  lemma OneGapRenotifies()
    ensures var f := Record("id", "K8S.POD.NOT_READY", "issue", "Pod", "Pod/a/b", "", false, "");
            var blind := Record("u", "K8S.API.UNAVAILABLE", "unavailable", "Pod", "Rule/pods", "", false, "");
            var samples := [Document([f], ""), Document([blind], ""), Document([f], "")];
            && Interrupted(samples, f, 2)
            && Named(CompareHistoryOf(Kept(samples[..2], 2), samples[2]), f.id)
            && !Named(CompareHistoryOf(samples[..2], samples[2]), f.id)
  {
    var f := Record("id", "K8S.POD.NOT_READY", "issue", "Pod", "Pod/a/b", "", false, "");
    var blind := Record("u", "K8S.API.UNAVAILABLE", "unavailable", "Pod", "Rule/pods", "", false, "");
    var samples := [Document([f], ""), Document([blind], ""), Document([f], "")];
    SoleRecordReports(f);
    SoleBlockerMisses(f, blind);
    hide Reports, Misses, Named, CompareHistoryOf, Key;
    assert !Reports(samples[1], f) && NotifiesIn(samples[2], f.id);
    RenotifiedExactly(samples, f, 2, 2);
    RenotifiedExactly(samples, f, 3, 2);
    assert Kept(samples[..2], 3) == samples[..2];
  }

  lemma SoleRecordReports(f: Record)
    ensures Reports(Document([f], ""), f)
  {
    assert WithKey(Key(f), [f]) == [f];
    assert f in [f];
  }

  lemma SoleBlockerMisses(f: Record, blind: Record)
    requires blind.severity == "unavailable" && blind.section == f.section != "" && f.ruleId == ""
    requires blind.id != f.id && Key(blind) != Key(f)
    ensures Misses(Document([blind], ""), f) && !Reports(Document([blind], ""), f)
  {
    var doc := Document([blind], "");
    assert UnavailableIn(doc, f.section) == [blind];
  }
}
