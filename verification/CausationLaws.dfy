/** Causation in plain terms: what a root lists, and which symptoms it absorbs,
    stated on the findings and the graph. */
module CausationLaws {
  import opened Text
  import opened Sorting
  import opened Seqs
  import opened Graph
  import opened Model
  import opened Correlation
  import opened CorrelationLaws

  // ---------------------------------------------------------------------------
  // The index

  lemma AtMembers(findings: seq<Finding>, resource: string, f: Finding)
    ensures f in At(IndexOf(findings), resource) <==> f in findings && f.resource == resource && resource != ""
  {
    var p := (g: Finding) => g.resource == resource;
    FilterMembers(p, findings);
    SortPermutes(IdLess, Filter(p, findings));
    hide Filter, Sort, IdLess;
  }

  lemma DegradedMembers(findings: seq<Finding>, resource: string, f: Finding)
    ensures f in Degraded(IndexOf(findings), resource)
            <==> && f in findings && f.resource == resource && resource != ""
                 && (f.severity == Issue || f.severity == Warning)
  {
    AtMembers(findings, resource, f);
    FilterMembers((g: Finding) => g.severity == Issue || g.severity == Warning, At(IndexOf(findings), resource));
    hide Filter, IndexOf, At;
  }

  // ---------------------------------------------------------------------------
  // Related findings

  /** What a finding adds to a root: its ID, and evidence if it is a log finding. */
  datatype Item = IdItem(id: string) | EvidenceItem(evidence: Evidence)

  ghost predicate Holds(acc: Assembly, item: Item)
  {
    match item
    case IdItem(id) => id in acc.related
    case EvidenceItem(e) => e in acc.evidence
  }

  predicate IsLogItem(f: Finding, e: Evidence)
  {
    e == Evidence("log-signature", f.code, f.message) || (e in f.evidence && e.kind == "log" && e.key == "match")
  }

  predicate Gives(f: Finding, item: Item)
  {
    match item
    case IdItem(id) => f.id == id
    case EvidenceItem(e) => HasPrefix(f.code, "K8S.LOG.") && IsLogItem(f, e)
  }

  lemma LogEvidenceMembers(evidence: seq<Evidence>, f: Finding, e: Evidence)
    ensures e in LogEvidence(evidence, f) <==> e in evidence || IsLogItem(f, e)
  {
    FilterMembers((x: Evidence) => x.kind == "log" && x.key == "match", f.evidence);
    hide Filter;
  }

  lemma AbsorbGives(acc: Assembly, f: Finding, item: Item)
    ensures Holds(Absorb(acc, f), item) <==> Holds(acc, item) || Gives(f, item)
  {
    if item.EvidenceItem? {
      LogEvidenceMembers(acc.evidence, f, item.evidence);
    }
    hide LogEvidence, IsLogItem;
  }

  lemma SupportGives(cause: Finding, acc: Assembly, f: Finding, item: Item)
    ensures Holds(Support(cause, acc, f), item) <==> Holds(acc, item) || (Supports(cause, f) && Gives(f, item))
  {
    if item.EvidenceItem? {
      LogEvidenceMembers(acc.evidence, f, item.evidence);
    }
    hide LogEvidence, IsLogItem;
  }

  ghost predicate HasItem(fs: seq<Finding>, item: Item)
  {
    exists f :: f in fs && Gives(f, item)
  }

  lemma HasItemGrows(fs: seq<Finding>, f: Finding, item: Item)
    ensures HasItem(fs + [f], item) <==> HasItem(fs, item) || Gives(f, item)
  {
    hide Gives;
    assert f in fs + [f];
    if g :| g in fs && Gives(g, item) {
      assert g in fs + [f];
    }
  }

  lemma {:induction false} AbsorbedItems(acc: Assembly, fs: seq<Finding>, item: Item)
    ensures Holds(AbsorbAll(acc, fs), item) <==> Holds(acc, item) || HasItem(fs, item)
  {
    if fs != [] {
      hide HasItem, Holds, Gives, Absorb;
      var n := |fs| - 1;
      AbsorbedItems(acc, fs[..n], item);
      AbsorbGives(AbsorbAll(acc, fs[..n]), fs[n], item);
      assert fs == fs[..n] + [fs[n]];
      HasItemGrows(fs[..n], fs[n], item);
    }
  }

  ghost predicate Supports(cause: Finding, f: Finding)
  {
    f.id != cause.id && HasPrefix(f.code, "K8S.LOG.")
  }

  ghost predicate HasSupport(cause: Finding, fs: seq<Finding>, item: Item)
  {
    exists f :: f in fs && Supports(cause, f) && Gives(f, item)
  }

  lemma HasSupportGrows(cause: Finding, fs: seq<Finding>, f: Finding, item: Item)
    ensures HasSupport(cause, fs + [f], item) <==> HasSupport(cause, fs, item) || (Supports(cause, f) && Gives(f, item))
  {
    hide Supports, Gives;
    assert f in fs + [f];
    if g :| g in fs && Supports(cause, g) && Gives(g, item) {
      assert g in fs + [f];
    }
  }

  lemma {:induction false} SupportItems(cause: Finding, acc: Assembly, fs: seq<Finding>, item: Item)
    ensures Holds(SupportAll(cause, acc, fs), item) <==> Holds(acc, item) || HasSupport(cause, fs, item)
  {
    if fs != [] {
      hide HasSupport, Holds, Gives, Support, Supports;
      var n := |fs| - 1;
      SupportItems(cause, acc, fs[..n], item);
      SupportGives(cause, SupportAll(cause, acc, fs[..n]), fs[n], item);
      assert fs == fs[..n] + [fs[n]];
      HasSupportGrows(cause, fs[..n], fs[n], item);
    }
  }

  /** A shown path leads to a degraded finding that gives the item. */
  ghost predicate HasImpact(w: World, ix: Index, paths: seq<GraphPath>, item: Item)
  {
    exists p :: p in paths && Shown(w, ix, p) && HasItem(Degraded(ix, p.resource), item)
  }

  lemma HasImpactGrows(w: World, ix: Index, paths: seq<GraphPath>, path: GraphPath, item: Item)
    ensures HasImpact(w, ix, paths + [path], item)
            <==> HasImpact(w, ix, paths, item) || (Shown(w, ix, path) && HasItem(Degraded(ix, path.resource), item))
  {
    hide HasItem, Shown;
    assert path in paths + [path];
    if p :| p in paths && Shown(w, ix, p) && HasItem(Degraded(ix, p.resource), item) {
      assert p in paths + [path];
    }
  }

  lemma AddedItems(w: World, ix: Index, acc: Assembly, path: GraphPath, item: Item)
    ensures Holds(AddImpact(w, ix, acc, path), item)
            <==> Holds(acc, item) || (Shown(w, ix, path) && HasItem(Degraded(ix, path.resource), item))
  {
    AbsorbedItems(acc, Degraded(ix, path.resource), item);
    hide HasItem, Degraded, ImpactOf, AbsorbAll, ImpactMessage;
  }

  lemma {:induction false} ImpactItems(w: World, ix: Index, acc: Assembly, paths: seq<GraphPath>, item: Item)
    ensures Holds(AddImpacts(w, ix, acc, paths), item) <==> Holds(acc, item) || HasImpact(w, ix, paths, item)
  {
    if paths != [] {
      hide HasImpact, AddImpact, Holds;
      var n := |paths| - 1;
      ImpactItems(w, ix, acc, paths[..n], item);
      assert paths == paths[..n] + [paths[n]];
      HasImpactGrows(w, ix, paths[..n], paths[n], item);
      AddedItems(w, ix, AddImpacts(w, ix, acc, paths[..n]), paths[n], item);
    }
  }

  /** A resource that the cause reaches and that is shown as an impact of it. */
  ghost predicate Impacted(w: World, findings: seq<Finding>, cause: Finding, resource: string)
  {
    && resource != cause.resource && Reaches(w.graph, cause.resource, RequiredKey(cause), resource)
    && ImpactMessage(w, IndexOf(findings), resource) != ""
  }

  /** Why a root of the cause lists another finding. */
  ghost predicate RelatesTo(w: World, findings: seq<Finding>, cause: Finding, g: Finding)
  {
    && g.resource != ""
    && (|| (g.resource == cause.resource && HasPrefix(g.code, "K8S.LOG.") && g.id != cause.id)
        || ((g.severity == Issue || g.severity == Warning) && Impacted(w, findings, cause, g.resource)))
  }

  lemma ImpactsReached(w: World, findings: seq<Finding>, cause: Finding, item: Item)
    ensures HasImpact(w, IndexOf(findings), DescendantsOf(w.graph, cause.resource, RequiredKey(cause)), item)
            <==> exists g :: && g in findings && Gives(g, item) && g.resource != "" && (g.severity == Issue || g.severity == Warning)
                             && Impacted(w, findings, cause, g.resource)
  {
    var ix, start, key := IndexOf(findings), cause.resource, RequiredKey(cause);
    var paths := DescendantsOf(w.graph, start, key);
    hide IndexOf, DescendantsOf, Reaches, ImpactMessage, Degraded, RequiredKey, Gives;
    if p :| p in paths && Shown(w, ix, p) && HasItem(Degraded(ix, p.resource), item) {
      var g :| g in Degraded(ix, p.resource) && Gives(g, item);
      DegradedMembers(findings, p.resource, g);
      DescendantsAreReachable(w.graph, start, key, p.resource);
      assert p.resource in Resources(paths);
    }
    if g :| && g in findings && Gives(g, item) && g.resource != "" && (g.severity == Issue || g.severity == Warning)
            && Impacted(w, findings, cause, g.resource) {
      DescendantsAreReachable(w.graph, start, key, g.resource);
      var p :| p in paths && p.resource == g.resource;
      DegradedMembers(findings, p.resource, g);
      assert Shown(w, ix, p) && HasItem(Degraded(ix, p.resource), item);
    }
  }

  lemma SupportsHere(findings: seq<Finding>, cause: Finding, item: Item)
    ensures HasSupport(cause, At(IndexOf(findings), cause.resource), item)
            <==> exists g :: && g in findings && Gives(g, item) && g.resource != ""
                             && g.resource == cause.resource && HasPrefix(g.code, "K8S.LOG.") && g.id != cause.id
  {
    hide IndexOf, At, Gives;
    if g :| g in At(IndexOf(findings), cause.resource) && Supports(cause, g) && Gives(g, item) {
      AtMembers(findings, cause.resource, g);
    }
    if g :| && g in findings && Gives(g, item) && g.resource != ""
            && g.resource == cause.resource && HasPrefix(g.code, "K8S.LOG.") && g.id != cause.id {
      AtMembers(findings, cause.resource, g);
      assert Supports(cause, g);
    }
  }

  lemma AssembledItems(w: World, findings: seq<Finding>, cause: Finding, item: Item)
    ensures Holds(Assemble(w, IndexOf(findings), cause), item)
            <==> Holds(Opening(w, cause), item)
                 || exists g :: g in findings && Gives(g, item) && RelatesTo(w, findings, cause, g)
  {
    var ix := IndexOf(findings);
    var here := At(ix, cause.resource);
    ImpactItems(w, ix, SupportAll(cause, Opening(w, cause), here), DescendantsOf(w.graph, cause.resource, RequiredKey(cause)), item);
    SupportItems(cause, Opening(w, cause), here, item);
    ImpactsReached(w, findings, cause, item);
    SupportsHere(findings, cause, item);
    hide HasImpact, HasSupport, Impacted, IndexOf, At, SupportAll, AddImpacts, DescendantsOf, RequiredKey, Gives, Opening, Holds;
    if g :| g in findings && Gives(g, item) && RelatesTo(w, findings, cause, g) {
    }
  }

  lemma AssembledIds(w: World, findings: seq<Finding>, cause: Finding, id: string)
    ensures id in Assemble(w, IndexOf(findings), cause).related
            <==> exists g :: g in findings && g.id == id && RelatesTo(w, findings, cause, g)
  {
    AssembledItems(w, findings, cause, IdItem(id));
    hide Assemble, IndexOf, RelatesTo;
    if g :| g in findings && Gives(g, IdItem(id)) && RelatesTo(w, findings, cause, g) {
    }
    if g :| g in findings && g.id == id && RelatesTo(w, findings, cause, g) {
      assert Gives(g, IdItem(id));
    }
  }

  /** The evidence of a root is that of its cause, its assessment, and for each related
      log finding a signature and the matching lines. */
  lemma EvidenceExactly(w: World, findings: seq<Finding>, cause: Finding, e: Evidence)
    ensures e in RootOf(w, IndexOf(findings), cause).evidence
            <==> || e in cause.evidence
                 || e == Evidence("assessment", "classification", w.text(RootAssessment(cause).1))
                 || exists g :: && g in findings && HasPrefix(g.code, "K8S.LOG.") && RelatesTo(w, findings, cause, g)
                                && IsLogItem(g, e)
  {
    AssembledItems(w, findings, cause, EvidenceItem(e));
    hide Assemble, IndexOf, RelatesTo, IsLogItem, RootAssessment;
    if g :| g in findings && Gives(g, EvidenceItem(e)) && RelatesTo(w, findings, cause, g) {
    }
    if g :| && g in findings && HasPrefix(g.code, "K8S.LOG.") && RelatesTo(w, findings, cause, g) && IsLogItem(g, e) {
      assert Gives(g, EvidenceItem(e));
    }
  }

  /** A root lists its cause, the log findings of the same resource, and the Issue and
      Warning findings of its impacts, and nothing else. */
  lemma RelatedExactly(w: World, findings: seq<Finding>, cause: Finding, id: string)
    requires WellFormed(findings) && cause in findings
    ensures id in RootOf(w, IndexOf(findings), cause).related
            <==> id == cause.id || exists g :: g in findings && g.id == id && RelatesTo(w, findings, cause, g)
  {
    var ids := Assemble(w, IndexOf(findings), cause).related;
    AssembledIds(w, findings, cause, id);
    forall x | x in [cause.id] + ids ensures IsTrimmed(x) {
      if x != cause.id {
        AssembledIds(w, findings, cause, x);
        var g :| g in findings && g.id == x && RelatesTo(w, findings, cause, g);
      }
    }
    hide IndexOf, Assemble, RelatesTo, RootAssessment;
    UniqueOfTrimmed([cause.id] + ids, id);
  }

  lemma UniqueOfTrimmed(values: seq<string>, s: string)
    requires forall x :: x in values ==> IsTrimmed(x)
    ensures s in Unique(values) <==> s in values
  {
    UniqueMembers(values);
    if s in values {
      UniqueKeepsTrimmed(values, s);
    }
    if i :| 0 <= i < |values| && TrimSpace(values[i]) == s {
      assert values[i] in values;
      TrimmedUnchanged(values[i]);
    }
  }

  // ---------------------------------------------------------------------------
  // Absorbed symptoms

  /** An Issue that proves itself a root cause. */
  ghost predicate IsProof(c: Finding)
  {
    c.severity == Issue && c.confidence >= 90 && StrongRootCode(c.code)
  }

  lemma SymptomIsNoLog(code: string)
    requires SymptomCode(code)
    ensures !IsLog(code)
  {
    assert "K8S.LOG."[4] == 'L' && "K8S.CONNECT."[4] == 'C';
  }

  lemma ProofIsCause(w: World, findings: seq<Finding>, c: Finding)
    requires UniqueIds(findings) && c in findings && IsProof(c)
    ensures Rooted(CorrelateOf(w, findings), c)
  {
    StrongIsNoSymptom(c.code);
    CausesCharacterised(w, findings, c);
    hide CorrelateOf, SymptomCode, StrongRootCode, ListedByConfirmed, IsLog;
  }

  ghost predicate Absorbs(w: World, findings: seq<Finding>, c: Finding, f: Finding)
  {
    IsProof(c) && Impacted(w, findings, c, f.resource)
  }

  /** A confirmed root lists a symptom exactly when its cause reaches the symptom's resource. */
  lemma ListsSymptom(w: World, findings: seq<Finding>, c: Finding, f: Finding)
    requires WellFormed(findings) && c in findings && f in findings
    requires f.severity == Issue && SymptomCode(f.code) && f.resource != ""
    ensures RootOf(w, IndexOf(findings), c).confirmed && f.id in RootOf(w, IndexOf(findings), c).related
            <==> Absorbs(w, findings, c, f)
  {
    ConfirmedIsStrong(w, IndexOf(findings), c);
    RelatedExactly(w, findings, c, f.id);
    SymptomIsNoLog(f.code);
    if IsProof(c) {
      StrongIsNoSymptom(c.code);
    }
    hide RootOf, IndexOf, SymptomCode, StrongRootCode, Impacted;
    forall g | g in findings && g.id == f.id ensures g == f {
      SameId(findings, g, f);
    }
  }

  lemma SameId(findings: seq<Finding>, f: Finding, g: Finding)
    requires UniqueIds(findings) && f in findings && g in findings && f.id == g.id
    ensures f == g
  {
    var i :| 0 <= i < |findings| && findings[i] == f;
    var j :| 0 <= j < |findings| && findings[j] == g;
  }

  lemma ListedIsAbsorbed(w: World, findings: seq<Finding>, f: Finding)
    requires WellFormed(findings) && f in findings && f.severity == Issue && SymptomCode(f.code) && f.resource != ""
    ensures ListedByConfirmed(CorrelateOf(w, findings), f.id) <==> exists c :: c in findings && Absorbs(w, findings, c, f)
  {
    var roots := CorrelateOf(w, findings);
    CausesAreDistinct(w, findings);
    hide CorrelateOf, IndexOf, RootOf, SymptomCode, Absorbs, UniqueIds;
    if ListedByConfirmed(roots, f.id) {
      var i :| 0 <= i < |roots| && roots[i].confirmed && f.id in roots[i].related;
      ListsSymptom(w, findings, roots[i].cause, f);
    }
    if c :| c in findings && Absorbs(w, findings, c, f) {
      AbsorberIsRooted(w, findings, c, f);
      var i :| 0 <= i < |roots| && roots[i].cause == c;
      ListsSymptom(w, findings, c, f);
    }
  }

  lemma AbsorberIsRooted(w: World, findings: seq<Finding>, c: Finding, f: Finding)
    requires UniqueIds(findings) && c in findings && Absorbs(w, findings, c, f)
    ensures Rooted(CorrelateOf(w, findings), c)
  {
    hide CorrelateOf, IsProof, Impacted, UniqueIds;
    ProofIsCause(w, findings, c);
  }

  /** An Issue symptom causes no root if and only if some confident Issue with a strong
      code, on another resource, reaches the symptom's degraded resource. */
  lemma SymptomAbsorbedExactly(w: World, findings: seq<Finding>, f: Finding)
    requires WellFormed(findings) && f in findings
    requires f.severity == Issue && SymptomCode(f.code) && f.resource != ""
    ensures (forall i :: 0 <= i < |CorrelateOf(w, findings)| ==> CorrelateOf(w, findings)[i].cause != f)
            <==> exists c :: && c in findings && c.severity == Issue && StrongRootCode(c.code) && c.confidence >= 90
                             && f.resource != c.resource
                             && Reaches(w.graph, c.resource, RequiredKey(c), f.resource)
                             && ImpactMessage(w, IndexOf(findings), f.resource) != ""
  {
    SymptomIsNoLog(f.code);
    IssuesAreCovered(w, findings, f);
    ListedIsAbsorbed(w, findings, f);
    hide CorrelateOf, IndexOf, SymptomCode, StrongRootCode, Reaches, RequiredKey, ImpactMessage, WellFormed, IsLog,
      ListedByConfirmed;
    if c :| c in findings && Absorbs(w, findings, c, f) {
      assert IsProof(c) && Impacted(w, findings, c, f.resource);
    }
  }

  predicate IsDegradedOn(f: Finding, resource: string)
  {
    f.resource == resource && (f.severity == Issue || f.severity == Warning)
  }

  /** The message of an impact is that of the Issue or Warning with the least ID on the
      resource, or, where there is none, that of the resource's own degraded status. */
  lemma ImpactMessageIs(w: World, findings: seq<Finding>, resource: string)
    requires resource != ""
    ensures (forall f :: f in findings ==> !IsDegradedOn(f, resource))
            ==> ImpactMessage(w, IndexOf(findings), resource) == w.degraded(resource)
    ensures (exists f :: f in findings && IsDegradedOn(f, resource))
            ==> exists g :: && g in findings && IsDegradedOn(g, resource)
                            && g.message == ImpactMessage(w, IndexOf(findings), resource)
                            && forall f :: f in findings && IsDegradedOn(f, resource) ==> !Less(f.id, g.id)
  {
    var values := Degraded(IndexOf(findings), resource);
    DegradedIsSorted(findings, resource);
    hide IndexOf, Degraded;
    forall f ensures f in values <==> f in findings && IsDegradedOn(f, resource) {
      DegradedMembers(findings, resource, f);
    }
    if |values| > 0 {
      var g := values[0];
      LessIsStrictTotalOrder();
      forall f | f in values ensures !Less(f.id, g.id) {
        var i :| 0 <= i < |values| && values[i] == f;
        assert i == 0 || !IdLess(values[i], values[0]);
      }
      assert g in values;
    }
  }

  lemma DegradedIsSorted(findings: seq<Finding>, resource: string)
    ensures Sorted(IdLess, Degraded(IndexOf(findings), resource))
  {
    OrdersAreWeak();
    var here := At(IndexOf(findings), resource);
    if resource in IndexOf(findings).byResource {
      SortSorts(IdLess, Filter((f: Finding) => f.resource == resource, findings));
    }
    hide IndexOf, WeakOrder;
    FilterStaysSorted((f: Finding) => f.severity == Issue || f.severity == Warning, here);
  }

  lemma {:induction false} FilterStaysSorted(p: Finding -> bool, fs: seq<Finding>)
    requires Sorted(IdLess, fs)
    ensures Sorted(IdLess, Filter(p, fs))
  {
    hide IdLess;
    if fs != [] {
      var n := |fs| - 1;
      FilterStaysSorted(p, fs[..n]);
      FilterMembers(p, fs[..n]);
      var kept := Filter(p, fs[..n]);
      forall i | 0 <= i < |kept| ensures !IdLess(fs[n], kept[i]) {
        assert kept[i] in fs[..n];
        var k :| 0 <= k < n && fs[..n][k] == kept[i];
        assert fs[k] == kept[i];
      }
    }
  }

  // ---------------------------------------------------------------------------
  // The other fields of a root

  lemma {:induction false} SplitEnd(head: string, tail: string, sep: char)
    requires sep !in tail
    ensures var parts := Split(head + [sep] + tail, sep); |parts| >= 2 && parts[|parts| - 1] == tail
  {
    var s := head + [sep] + tail;
    if head == [] {
      assert s[1..] == tail;
      SplitWhole(tail, sep);
    } else {
      assert s[1..] == head[1..] + [sep] + tail;
      SplitEnd(head[1..], tail, sep);
    }
  }

  lemma {:induction false} SplitWhole(s: string, sep: char)
    requires sep !in s
    ensures Split(s, sep) == [s]
  {
    if s != [] {
      SplitWhole(s[1..], sep);
      assert [s[0]] + s[1..] == s;
    }
  }

  /** Only a missing key restricts the first edges: to the part of the stable key after its last slash. */
  lemma RequiredKeyIs(cause: Finding, head: string, key: string)
    requires '/' !in key
    ensures cause.code != "K8S.DEPENDENCY.MISSING_KEY" ==> RequiredKey(cause) == ""
    ensures cause.code == "K8S.DEPENDENCY.MISSING_KEY" && cause.stableKey == key ==> RequiredKey(cause) == ""
    ensures cause.code == "K8S.DEPENDENCY.MISSING_KEY" && cause.stableKey == head + "/" + key ==> RequiredKey(cause) == key
  {
    SplitEnd(head, key, '/');
    SplitWhole(key, '/');
  }

  /** The confidence of a root is capped at 70 for symptoms and at 85 for logs and codes
      that prove nothing; the classification follows from it. */
  lemma RootFields(w: World, ix: Index, cause: Finding)
    ensures var r := RootOf(w, ix, cause);
            && r.cause == cause
            && r.confidence == (if SymptomCode(cause.code) then Max(0, Min(70, cause.confidence))
                                else if HasPrefix(cause.code, "K8S.LOG.") || !StrongRootCode(cause.code)
                                then Max(0, Min(85, cause.confidence))
                                else Max(0, Min(100, cause.confidence)))
            && (r.confirmed <==> cause.severity == Issue && r.confidence >= 90)
            && (r.classification == RootCauseClass <==> r.confirmed)
            && (r.classification == CauseCandidate <==> !r.confirmed && r.confidence >= 60)
            && (r.classification == RelatedCandidate <==> r.confidence < 60)
  {
    hide SymptomCode, StrongRootCode, Assemble;
  }

  /** The words that come with the classification. */
  lemma AssessmentIs(cause: Finding)
    ensures var a := RootAssessment(cause).1;
            && (a == SymptomOnly <==> SymptomCode(cause.code))
            && (a == DirectlyChecked <==> cause.severity == Issue && cause.confidence >= 90 && StrongRootCode(cause.code))
            && (a == LogRecord <==> HasPrefix(cause.code, "K8S.LOG."))
            && (a == WeakCode <==> !SymptomCode(cause.code) && !HasPrefix(cause.code, "K8S.LOG.") && !StrongRootCode(cause.code))
  {
    if StrongRootCode(cause.code) {
      StrongIsNoSymptom(cause.code);
    }
    if SymptomCode(cause.code) {
      SymptomIsNoLog(cause.code);
    }
    hide SymptomCode, StrongRootCode;
  }

  /** An impact names its last relation, the message of its resource, and the IDs of the
      Issues and Warnings there. */
  lemma ImpactFields(w: World, findings: seq<Finding>, cause: Finding, m: Impact)
    requires m in RootOf(w, IndexOf(findings), cause).direct + RootOf(w, IndexOf(findings), cause).propagated
    ensures m.relation == if |m.pathRelations| > 0 then m.pathRelations[|m.pathRelations| - 1] else ""
    ensures m.message == ImpactMessage(w, IndexOf(findings), m.resource) != ""
    ensures m.resource != "" ==>
              forall id :: id in m.findingIds <==> exists g :: g in findings && g.id == id && IsDegradedOn(g, m.resource)
  {
    var ix := IndexOf(findings);
    var p := ImpactSource(w, ix, cause, m);
    var values := Degraded(ix, m.resource);
    hide IndexOf, RootOf, Degraded, ImpactMessage;
    forall f ensures f in values <==> f in findings && IsDegradedOn(f, m.resource) && m.resource != "" {
      DegradedMembers(findings, m.resource, f);
    }
    forall id ensures id in m.findingIds <==> exists g :: g in values && g.id == id {
      if id in m.findingIds {
        var i :| 0 <= i < |values| && values[i].id == id;
        assert values[i] in values;
      }
      if g :| g in values && g.id == id {
        var i :| 0 <= i < |values| && values[i] == g;
        assert m.findingIds[i] == id;
      }
    }
  }

  lemma ImpactSource(w: World, ix: Index, cause: Finding, m: Impact) returns (p: GraphPath)
    requires m in RootOf(w, ix, cause).direct + RootOf(w, ix, cause).propagated
    ensures m == ImpactOf(w, ix, p) && ImpactMessage(w, ix, p.resource) != ""
  {
    var r, start, key := RootOf(w, ix, cause), cause.resource, RequiredKey(cause);
    var paths := DescendantsOf(w.graph, start, key);
    DescendantsCorrect(w.graph, start, key);
    SupportKeepsImpacts(cause, Opening(w, cause), At(ix, start));
    ImpactsArePaths(w, ix, SupportAll(cause, Opening(w, cause), At(ix, start)), paths);
    assert SplitByDepth(w, ix, paths, r.direct, r.propagated);
    hide RootOf, ImpactOf, ImpactMessage, DescendantsOf, ShortestPaths, At, Opening, SupportAll, AddImpacts;
    assert m in r.direct || m in r.propagated;
    p :| p in paths && Shown(w, ix, p) && m == ImpactOf(w, ix, p);
  }

  lemma RootOrderIsWeak()
    ensures WeakOrder(RootLess)
  {
    LessIsStrictTotalOrder();
  }

  /** Roots come confirmed first, then by falling confidence, then by resource, then by ID. */
  lemma RootsAreOrdered(w: World, findings: seq<Finding>, i: nat, j: nat)
    requires i < j < |CorrelateOf(w, findings)|
    ensures var a, b := CorrelateOf(w, findings)[i], CorrelateOf(w, findings)[j];
            && (b.confirmed ==> a.confirmed)
            && (a.confirmed == b.confirmed ==> a.confidence >= b.confidence)
            && (a.confirmed == b.confirmed && a.confidence == b.confidence ==> !Less(b.cause.resource, a.cause.resource))
            && (a.confirmed == b.confirmed && a.confidence == b.confidence && a.cause.resource == b.cause.resource
                ==> !Less(b.id, a.id))
  {
    RootOrderIsWeak();
    LessIsStrictTotalOrder();
    SortSorts(RootLess, Process(w, IndexOf(findings), Ordered(findings)).roots);
    hide Process, Ordered, IndexOf, WeakOrder;
    assert !RootLess(CorrelateOf(w, findings)[j], CorrelateOf(w, findings)[i]);
  }

  /** A log finding is mere evidence where another finding of its resource, not a log, can be a cause. */
  lemma OnlyEvidenceIs(findings: seq<Finding>, f: Finding)
    ensures OnlyEvidence(IndexOf(findings), f)
            <==> && HasPrefix(f.code, "K8S.LOG.") && f.resource != ""
                 && exists g :: && g in findings && g.resource == f.resource && !HasPrefix(g.code, "K8S.LOG.")
                                && RootEligible(g)
  {
    hide IndexOf, At, RootEligible;
    forall g ensures g in At(IndexOf(findings), f.resource) <==> g in findings && g.resource == f.resource && f.resource != "" {
      AtMembers(findings, f.resource, g);
    }
  }
}
