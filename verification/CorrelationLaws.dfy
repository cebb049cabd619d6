/** What correlation guarantees: who becomes a cause, order independence, the
    blast radius, and the health score. */
module CorrelationLaws {
  import opened Text
  import opened Sorting
  import opened Seqs
  import opened Graph
  import opened Model
  import opened Correlation

  /** Finding IDs are hexadecimal fingerprints, so they are trimmed, and the
      diagnostic state keeps one finding per ID. */
  ghost predicate WellFormed(findings: seq<Finding>)
  {
    && (forall i :: 0 <= i < |findings| ==> IsTrimmed(findings[i].id))
    && UniqueIds(findings)
  }

  ghost predicate UniqueIds(findings: seq<Finding>)
  {
    forall i, j :: 0 <= i < j < |findings| ==> findings[i].id != findings[j].id
  }

  // ---------------------------------------------------------------------------
  // Orders and codes

  lemma OrdersAreWeak()
    ensures WeakOrder(IdLess)
    ensures WeakOrder(CandidateLess)
  {
    LessIsStrictTotalOrder();
  }

  lemma UniqueIdsDecide(findings: seq<Finding>)
    requires UniqueIds(findings)
    ensures TotalOn(IdLess, findings) && TotalOn(CandidateLess, findings)
  {
    LessIsStrictTotalOrder();
    forall x, y | x in findings && y in findings && x != y ensures x.id != y.id {
      var i :| 0 <= i < |findings| && findings[i] == x;
      var j :| 0 <= j < |findings| && findings[j] == y;
    }
  }

  lemma StrongIsNoSymptom(code: string)
    requires StrongRootCode(code)
    ensures !SymptomCode(code) && !IsLog(code)
  {
    StrongNames(code);
    hide StrongRootCode;
    assert "K8S.LOG."[4] == 'L' && "K8S.CONNECT."[4] == 'C' && "K8S.CONNECT."[7] == 'N';
  }

  lemma StrongNames(code: string)
    requires StrongRootCode(code)
    ensures |code| > 7 && code[4] != 'L' && (code[4] == 'C' ==> code[7] != 'N')
    ensures code !in {
              "K8S.POD.ABNORMAL_STATE", "K8S.POD.PENDING_STATE", "K8S.POD.NOT_READY", "K8S.POD.FAILED_PHASE",
              "K8S.WORKLOAD.PROGRESS_DEADLINE_EXCEEDED", "K8S.WORKLOAD.REPLICA_FAILURE",
              "K8S.WORKLOAD.REPLICAS_UNAVAILABLE", "K8S.SERVICE.NO_READY_ENDPOINT", "K8S.SERVICE.TERMINATING_ENDPOINTS_ONLY"
            }
  {
  }

  lemma SymptomPriority(symptom: Finding)
    requires SymptomCode(symptom.code)
    ensures RootPriority(symptom) == 2
  {
    if StrongRootCode(symptom.code) {
      StrongIsNoSymptom(symptom.code);
    }
    hide StrongRootCode;
    assert symptom.code[4] != 'D';
    assert "K8S.DEPENDENCY."[4] == 'D';
  }

  /** A confirmed root is exactly a confident Issue with a strong code. */
  lemma ConfirmedIsStrong(w: World, ix: Index, cause: Finding)
    ensures RootOf(w, ix, cause).confirmed
            <==> cause.severity == Issue && cause.confidence >= 90 && StrongRootCode(cause.code)
  {
    if StrongRootCode(cause.code) {
      StrongIsNoSymptom(cause.code);
    }
  }

  /** ... so it is treated before every symptom. */
  lemma ConfirmedComesFirst(w: World, ix: Index, cause: Finding, symptom: Finding)
    requires RootOf(w, ix, cause).confirmed && SymptomCode(symptom.code)
    ensures CandidateLess(cause, symptom)
  {
    ConfirmedIsStrong(w, ix, cause);
    SymptomPriority(symptom);
    hide SymptomCode, StrongRootCode, RootOf;
  }

  // ---------------------------------------------------------------------------
  // The claiming loop

  ghost predicate Rooted(roots: seq<RootCause>, f: Finding)
  {
    exists i :: 0 <= i < |roots| && roots[i].cause == f
  }

  ghost predicate ClaimedIn(ix: Index, roots: seq<RootCause>, id: string)
  {
    exists i :: 0 <= i < |roots| && Claims(ix, roots[i], id)
  }

  ghost predicate Faithful(w: World, ix: Index, causes: seq<Finding>, p: Progress)
  {
    && (forall i :: 0 <= i < |p.roots| ==> p.roots[i].cause in causes && p.roots[i] == RootOf(w, ix, p.roots[i].cause))
    && (forall i, j :: 0 <= i < j < |p.roots| ==> p.roots[i].cause.id != p.roots[j].cause.id)
    && (forall id :: id in p.claimed <==> ClaimedIn(ix, p.roots, id))
  }

  lemma RootedGrows(roots: seq<RootCause>, root: RootCause, f: Finding)
    ensures Rooted(roots + [root], f) <==> Rooted(roots, f) || root.cause == f
  {
    if Rooted(roots, f) {
      var i :| 0 <= i < |roots| && roots[i].cause == f;
      assert (roots + [root])[i].cause == f;
    }
    if root.cause == f {
      assert (roots + [root])[|roots|].cause == f;
    }
  }

  lemma ClaimedInGrows(ix: Index, roots: seq<RootCause>, root: RootCause, id: string)
    ensures ClaimedIn(ix, roots + [root], id) <==> ClaimedIn(ix, roots, id) || Claims(ix, root, id)
  {
    if ClaimedIn(ix, roots, id) {
      var i :| 0 <= i < |roots| && Claims(ix, roots[i], id);
      assert Claims(ix, (roots + [root])[i], id);
    }
    if Claims(ix, root, id) {
      assert Claims(ix, (roots + [root])[|roots|], id);
    }
  }

  /** The loop treats the last candidate after all the others. */
  lemma ProcessStep(w: World, ix: Index, causes: seq<Finding>)
    requires causes != [] && UniqueIds(causes)
    ensures var init, cause := causes[..|causes| - 1], causes[|causes| - 1];
            && causes == init + [cause] && UniqueIds(init) && (forall f :: f in init ==> f.id != cause.id)
            && Process(w, ix, causes) == Take(w, ix, Process(w, ix, init), cause)
  {
  }

  lemma TakeResult(w: World, ix: Index, p: Progress, cause: Finding)
    ensures var q, root := Take(w, ix, p, cause), RootOf(w, ix, cause);
            && root.cause == cause
            && (cause.id in p.claimed ==> q == p)
            && (cause.id !in p.claimed ==> q.roots == p.roots + [root]
                                           && forall id :: id in q.claimed <==> id in p.claimed || Claims(ix, root, id))
  {
  }

  lemma TakeFaithful(w: World, ix: Index, init: seq<Finding>, cause: Finding, p: Progress)
    requires Faithful(w, ix, init, p) && forall f :: f in init ==> f.id != cause.id
    ensures Faithful(w, ix, init + [cause], Take(w, ix, p, cause))
  {
    hide RootOf, Claims, ClaimedIn, Take;
    var q, root := Take(w, ix, p, cause), RootOf(w, ix, cause);
    TakeResult(w, ix, p, cause);
    if cause.id !in p.claimed {
      forall id ensures id in q.claimed <==> ClaimedIn(ix, q.roots, id) {
        ClaimedInGrows(ix, p.roots, root, id);
      }
      forall i | 0 <= i < |p.roots| ensures p.roots[i].cause.id != cause.id {
        assert p.roots[i].cause in init;
      }
    }
  }

  lemma {:induction false} ProcessFaithful(w: World, ix: Index, causes: seq<Finding>)
    requires UniqueIds(causes)
    ensures Faithful(w, ix, causes, Process(w, ix, causes))
  {
    if causes == [] {
    } else {
      hide Take, Faithful, UniqueIds, Process;
      var init, cause := causes[..|causes| - 1], causes[|causes| - 1];
      ProcessStep(w, ix, causes);
      ProcessFaithful(w, ix, init);
      TakeFaithful(w, ix, init, cause, Process(w, ix, init));
    }
  }

  /** Each candidate is a cause unless a root claimed it. */
  ghost predicate Answered(ix: Index, causes: seq<Finding>, p: Progress)
  {
    forall k :: 0 <= k < |causes| ==> Rooted(p.roots, causes[k]) || ClaimedIn(ix, p.roots, causes[k].id)
  }

  lemma {:induction false} ProcessAnswers(w: World, ix: Index, causes: seq<Finding>)
    requires UniqueIds(causes)
    ensures Answered(ix, causes, Process(w, ix, causes))
  {
    if causes == [] {
    } else {
      hide Take, Faithful, Answered, UniqueIds, Process;
      var init, cause := causes[..|causes| - 1], causes[|causes| - 1];
      ProcessStep(w, ix, causes);
      ProcessAnswers(w, ix, init);
      ProcessFaithful(w, ix, init);
      TakeAnswers(w, ix, init, cause, Process(w, ix, init));
    }
  }

  lemma TakeAnswers(w: World, ix: Index, init: seq<Finding>, cause: Finding, p: Progress)
    requires Answered(ix, init, p) && Faithful(w, ix, init, p)
    ensures Answered(ix, init + [cause], Take(w, ix, p, cause))
  {
    var root, q, causes := RootOf(w, ix, cause), Take(w, ix, p, cause), init + [cause];
    assert root.cause == cause;
    assert q == p || q.roots == p.roots + [root];
    assert q == p ==> ClaimedIn(ix, p.roots, cause.id);
    hide RootOf, Take, Rooted, ClaimedIn, Faithful;
    forall k | 0 <= k < |causes|
      ensures Rooted(q.roots, causes[k]) || ClaimedIn(ix, q.roots, causes[k].id)
    {
      RootedGrows(p.roots, root, causes[k]);
      ClaimedInGrows(ix, p.roots, root, causes[k].id);
      assert k < |init| ==> causes[k] == init[k];
    }
  }

  /** No root claims a later candidate that still became a cause. */
  ghost predicate Settled(w: World, ix: Index, causes: seq<Finding>, p: Progress)
  {
    forall j, k :: 0 <= j < k < |causes| && Rooted(p.roots, causes[j]) && Rooted(p.roots, causes[k])
      ==> !Claims(ix, RootOf(w, ix, causes[j]), causes[k].id)
  }

  lemma {:induction false} ProcessSettled(w: World, ix: Index, causes: seq<Finding>)
    requires UniqueIds(causes)
    ensures Settled(w, ix, causes, Process(w, ix, causes))
  {
    if causes == [] {
    } else {
      hide Take, Faithful, Settled, Rooted, UniqueIds, Process;
      var init, cause := causes[..|causes| - 1], causes[|causes| - 1];
      ProcessStep(w, ix, causes);
      ProcessSettled(w, ix, init);
      ProcessFaithful(w, ix, init);
      NotRootedYet(w, ix, causes, Process(w, ix, init));
      TakeSettles(w, ix, init, cause, Process(w, ix, init));
    }
  }

  lemma TakeSettles(w: World, ix: Index, init: seq<Finding>, cause: Finding, p: Progress)
    requires UniqueIds(init + [cause]) && !Rooted(p.roots, cause)
    requires Settled(w, ix, init, p) && Faithful(w, ix, init, p)
    ensures Settled(w, ix, init + [cause], Take(w, ix, p, cause))
  {
    var root, q, causes, n := RootOf(w, ix, cause), Take(w, ix, p, cause), init + [cause], |init|;
    assert root.cause == cause;
    assert q == p || (q.roots == p.roots + [root] && cause.id !in p.claimed);
    hide RootOf, Process, Claims, Rooted, Take, Faithful;
    forall j, k | 0 <= j < k < |causes| && Rooted(q.roots, causes[j]) && Rooted(q.roots, causes[k])
      ensures !Claims(ix, RootOf(w, ix, causes[j]), causes[k].id)
    {
      RootedGrows(p.roots, root, causes[j]);
      RootedGrows(p.roots, root, causes[k]);
      DistinctElements(causes, j, n);
      assert causes[j] == init[j] && (k < n ==> causes[k] == init[k]);
      if k == n {
        RootIsUnclaimed(w, ix, init, p, causes[j], cause.id);
      }
    }
  }

  lemma DistinctElements(findings: seq<Finding>, j: nat, k: nat)
    requires UniqueIds(findings) && j < k < |findings|
    ensures findings[j] != findings[k]
  {
  }

  lemma RootIsUnclaimed(w: World, ix: Index, causes: seq<Finding>, p: Progress, f: Finding, id: string)
    requires Faithful(w, ix, causes, p) && Rooted(p.roots, f) && id !in p.claimed
    ensures !Claims(ix, RootOf(w, ix, f), id)
  {
  }

  lemma NotRootedYet(w: World, ix: Index, causes: seq<Finding>, p: Progress)
    requires causes != [] && UniqueIds(causes) && Faithful(w, ix, causes[..|causes| - 1], p)
    ensures !Rooted(p.roots, causes[|causes| - 1])
  {
  }

  // ---------------------------------------------------------------------------
  // Who is a cause

  lemma {:induction false} ByIdMembers(findings: seq<Finding>)
    requires UniqueIds(findings)
    ensures forall f :: f in findings ==> f.id in ById(findings) && ById(findings)[f.id] == f
    ensures forall id :: id in ById(findings) ==> ById(findings)[id] in findings && ById(findings)[id].id == id
  {
    if findings != [] {
      var n := |findings| - 1;
      ByIdMembers(findings[..n]);
      forall f | f in findings ensures f.id in ById(findings) && ById(findings)[f.id] == f {
        var i :| 0 <= i < |findings| && findings[i] == f;
        if i < n {
          assert findings[..n][i] == f;
        }
      }
    }
  }

  lemma OrderedFacts(findings: seq<Finding>)
    requires UniqueIds(findings)
    ensures var cs := Ordered(findings);
            && Sorted(CandidateLess, cs)
            && UniqueIds(cs)
            && forall f :: f in cs <==> f in findings && RootEligible(f) && !OnlyEvidence(IndexOf(findings), f)
  {
    var ix := IndexOf(findings);
    var p := (f: Finding) => RootEligible(f) && !OnlyEvidence(ix, f);
    var chosen := Candidates(ix, findings);
    FilterMembers(p, findings);
    OrdersAreWeak();
    SortSorts(CandidateLess, chosen);
    SortPermutes(CandidateLess, chosen);
    assert Distinct(findings);
    DistinctIsMultiplicity(findings);
    forall f ensures multiset(chosen)[f] <= 1 { FilterMultiplicity(p, findings, f); }
    DistinctIsMultiplicity(chosen);
    DistinctPermutation(chosen, Ordered(findings));
    var cs := Ordered(findings);
    forall i, j | 0 <= i < j < |cs| ensures cs[i].id != cs[j].id {
      assert cs[i] in findings && cs[j] in findings && cs[i] != cs[j];
      var a :| 0 <= a < |findings| && findings[a] == cs[i];
      var b :| 0 <= b < |findings| && findings[b] == cs[j];
    }
  }

  /** Some confirmed root lists the finding as related. */
  ghost predicate ListedByConfirmed(roots: seq<RootCause>, id: string)
  {
    exists i :: 0 <= i < |roots| && roots[i].confirmed && id in roots[i].related
  }

  /** A candidate without a root of its own is a symptom that a confirmed root lists. */
  lemma UnrootedIsListed(w: World, findings: seq<Finding>, f: Finding)
    requires UniqueIds(findings) && f in Ordered(findings)
    requires !Rooted(Process(w, IndexOf(findings), Ordered(findings)).roots, f)
    ensures f.severity == Issue && SymptomCode(f.code)
    ensures ListedByConfirmed(Process(w, IndexOf(findings), Ordered(findings)).roots, f.id)
  {
    var ix, cs := IndexOf(findings), Ordered(findings);
    OrderedFacts(findings);
    ByIdMembers(findings);
    ProcessFaithful(w, ix, cs);
    ProcessAnswers(w, ix, cs);
    var roots := Process(w, ix, cs).roots;
    hide RootOf, Process, Ordered, SymptomCode, OnlyEvidence, RootEligible;
    var k :| 0 <= k < |cs| && cs[k] == f;
    var i :| 0 <= i < |roots| && Claims(ix, roots[i], f.id);
    assert roots[i].cause in cs && roots[i].cause in findings;
    assert ix.byId == ById(findings) && ix.byId[f.id] == f;
    if roots[i].cause.id == f.id {
      assert ById(findings)[f.id] == roots[i].cause;
    }
  }

  lemma EarlierRootClaims(w: World, ix: Index, causes: seq<Finding>, p: Progress, cause: Finding, f: Finding)
    requires Settled(w, ix, causes, p) && Sorted(CandidateLess, causes) && WeakOrder(CandidateLess)
    requires cause in causes && f in causes && CandidateLess(cause, f)
    requires Rooted(p.roots, cause) && Claims(ix, RootOf(w, ix, cause), f.id)
    ensures !Rooted(p.roots, f)
  {
  }

  /** A listed Issue symptom has been claimed before its turn comes. */
  lemma ListedIsUnrooted(w: World, findings: seq<Finding>, f: Finding)
    requires UniqueIds(findings) && f in findings
    requires f.severity == Issue && SymptomCode(f.code)
    requires ListedByConfirmed(Process(w, IndexOf(findings), Ordered(findings)).roots, f.id)
    ensures !Rooted(Process(w, IndexOf(findings), Ordered(findings)).roots, f)
  {
    var ix, cs := IndexOf(findings), Ordered(findings);
    OrderedFacts(findings);
    ByIdMembers(findings);
    OrdersAreWeak();
    ProcessFaithful(w, ix, cs);
    ProcessSettled(w, ix, cs);
    var roots := Process(w, ix, cs).roots;
    var i :| 0 <= i < |roots| && roots[i].confirmed && f.id in roots[i].related;
    var cause := roots[i].cause;
    ConfirmedComesFirst(w, ix, cause, f);
    hide RootOf, Process, Ordered, SymptomCode, OnlyEvidence, RootEligible, CandidateLess, Settled;
    assert Rooted(roots, cause);
    if f in cs {
      EarlierRootClaims(w, ix, cs, Process(w, ix, cs), cause, f);
    }
  }

  lemma ProcessDecides(w: World, findings: seq<Finding>, f: Finding)
    requires UniqueIds(findings) && f in findings
    ensures var ix := IndexOf(findings);
            var roots := Process(w, ix, Ordered(findings)).roots;
            Rooted(roots, f) <==>
            RootEligible(f) && !OnlyEvidence(ix, f)
            && !(f.severity == Issue && SymptomCode(f.code) && ListedByConfirmed(roots, f.id))
  {
    var ix, cs := IndexOf(findings), Ordered(findings);
    OrderedFacts(findings);
    ProcessFaithful(w, ix, cs);
    var roots := Process(w, ix, cs).roots;
    if f.severity == Issue && SymptomCode(f.code) && ListedByConfirmed(roots, f.id) {
      ListedIsUnrooted(w, findings, f);
    } else if f in cs && !Rooted(roots, f) {
      UnrootedIsListed(w, findings, f);
    }
    hide RootOf, Process, Ordered, SymptomCode, OnlyEvidence, RootEligible, ListedByConfirmed;
    if Rooted(roots, f) {
      var i :| 0 <= i < |roots| && roots[i].cause == f;
      assert roots[i].cause in cs;
    }
  }

  lemma SortedRoots(w: World, findings: seq<Finding>)
    ensures var roots := Process(w, IndexOf(findings), Ordered(findings)).roots;
            && multiset(CorrelateOf(w, findings)) == multiset(roots)
            && |CorrelateOf(w, findings)| == |roots|
            && forall r :: r in CorrelateOf(w, findings) <==> r in roots
  {
    SortPermutes(RootLess, Process(w, IndexOf(findings), Ordered(findings)).roots);
  }

  lemma RootedIsMembership(a: seq<RootCause>, b: seq<RootCause>, f: Finding)
    requires forall r :: r in a <==> r in b
    ensures Rooted(a, f) <==> Rooted(b, f)
    ensures ListedByConfirmed(a, f.id) <==> ListedByConfirmed(b, f.id)
  {
    RootedSubset(a, b, f);
    RootedSubset(b, a, f);
  }

  lemma RootedSubset(a: seq<RootCause>, b: seq<RootCause>, f: Finding)
    requires forall r :: r in a ==> r in b
    ensures Rooted(a, f) ==> Rooted(b, f)
    ensures ListedByConfirmed(a, f.id) ==> ListedByConfirmed(b, f.id)
  {
    if Rooted(a, f) {
      var i :| 0 <= i < |a| && a[i].cause == f;
      assert a[i] in b;
    }
    if ListedByConfirmed(a, f.id) {
      var i :| 0 <= i < |a| && a[i].confirmed && f.id in a[i].related;
      assert a[i] in b;
    }
  }

  /** A finding is the cause of a root exactly when it is eligible, is not a log
      that merely supports a root candidate of its resource, and is not an Issue
      symptom that a confirmed root lists.  No finding causes two roots. */
  lemma CausesCharacterised(w: World, findings: seq<Finding>, f: Finding)
    requires UniqueIds(findings) && f in findings
    ensures var roots := CorrelateOf(w, findings);
            Rooted(roots, f) <==>
            RootEligible(f) && !OnlyEvidence(IndexOf(findings), f)
            && !(f.severity == Issue && SymptomCode(f.code) && ListedByConfirmed(roots, f.id))
  {
    ProcessDecides(w, findings, f);
    SortedRoots(w, findings);
    RootedIsMembership(CorrelateOf(w, findings), Process(w, IndexOf(findings), Ordered(findings)).roots, f);
  }

  lemma CausesAreDistinct(w: World, findings: seq<Finding>)
    requires UniqueIds(findings)
    ensures var roots := CorrelateOf(w, findings);
            && (forall i :: 0 <= i < |roots| ==>
                  roots[i].cause in findings && roots[i] == RootOf(w, IndexOf(findings), roots[i].cause))
            && (forall i, j :: 0 <= i < j < |roots| ==> roots[i].cause.id != roots[j].cause.id)
  {
    var ix, cs := IndexOf(findings), Ordered(findings);
    OrderedFacts(findings);
    ProcessFaithful(w, ix, cs);
    SortedRoots(w, findings);
    var before, roots := Process(w, ix, cs).roots, CorrelateOf(w, findings);
    hide Process, CorrelateOf, RootOf, IndexOf, Ordered, ClaimedIn;
    assert DistinctCauses(before);
    DistinctCausesPermute(before, roots);
    forall i | 0 <= i < |roots|
      ensures roots[i].cause in findings && roots[i] == RootOf(w, ix, roots[i].cause)
    {
      assert roots[i] in before;
    }
  }

  ghost predicate DistinctCauses(roots: seq<RootCause>)
  {
    forall i, j :: 0 <= i < j < |roots| ==> roots[i].cause.id != roots[j].cause.id
  }

  lemma DistinctCausesPermute(a: seq<RootCause>, b: seq<RootCause>)
    requires DistinctCauses(a) && multiset(a) == multiset(b)
    ensures DistinctCauses(b)
  {
    assert Distinct(a);
    DistinctPermutation(a, b);
    forall i, j | 0 <= i < j < |b| ensures b[i].cause.id != b[j].cause.id {
      assert b[i] in multiset(a) && b[j] in multiset(a) && b[i] != b[j];
      var k :| 0 <= k < |a| && a[k] == b[i];
      var m :| 0 <= m < |a| && a[m] == b[j];
    }
  }

  /** Every Issue that is not a log finding is accounted for in exactly one way. */
  lemma IssuesAreCovered(w: World, findings: seq<Finding>, f: Finding)
    requires UniqueIds(findings) && f in findings
    requires f.severity == Issue && !IsLog(f.code)
    ensures var roots := CorrelateOf(w, findings);
            Rooted(roots, f) <==> !(SymptomCode(f.code) && ListedByConfirmed(roots, f.id))
  {
    CausesCharacterised(w, findings, f);
  }

  // ---------------------------------------------------------------------------
  // Independence of the input order

  lemma OnIgnoresOrder(a: seq<Finding>, b: seq<Finding>, resource: string)
    requires multiset(a) == multiset(b) && UniqueIds(a)
    ensures On(a, resource) == On(b, resource)
  {
    var p := (f: Finding) => f.resource == resource;
    FilterPermutation(p, a, b);
    FilterMembers(p, a);
    UniqueIdsDecide(a);
    OrdersAreWeak();
    SortIgnoresInputOrder(IdLess, Filter(p, a), Filter(p, b));
  }

  lemma UniqueIdsPermutation(a: seq<Finding>, b: seq<Finding>)
    requires multiset(a) == multiset(b) && UniqueIds(a)
    ensures UniqueIds(b)
  {
    assert Distinct(a);
    DistinctPermutation(a, b);
    SamePermutedMembers(a, b);
    UniqueIdsDecide(a);
    forall i, j | 0 <= i < j < |b| ensures b[i].id != b[j].id {
      assert b[i] in a && b[j] in a && b[i] != b[j];
      LessIsStrictTotalOrder();
    }
  }

  lemma IndexIgnoresOrder(a: seq<Finding>, b: seq<Finding>)
    requires multiset(a) == multiset(b) && UniqueIds(a)
    ensures IndexOf(a) == IndexOf(b)
  {
    SamePermutedMembers(a, b);
    assert ResourceNames(a) == ResourceNames(b);
    forall r | r in ResourceNames(a) ensures On(a, r) == On(b, r) {
      OnIgnoresOrder(a, b, r);
    }
    UniqueIdsPermutation(a, b);
    ByIdMembers(a);
    ByIdMembers(b);
    assert forall id :: id in ById(a) ==> ById(a)[id] in b;
    assert forall id :: id in ById(b) ==> ById(b)[id] in a;
    assert ById(a) == ById(b);
  }

  /** The roots, with their impacts, evidence, related IDs and penalties, depend
      on the set of findings only. */
  lemma CorrelateIgnoresOrder(w: World, a: seq<Finding>, b: seq<Finding>)
    requires multiset(a) == multiset(b) && UniqueIds(a)
    ensures CorrelateOf(w, a) == CorrelateOf(w, b)
  {
    IndexIgnoresOrder(a, b);
    var ix := IndexOf(a);
    var p := (f: Finding) => RootEligible(f) && !OnlyEvidence(ix, f);
    FilterPermutation(p, a, b);
    FilterMembers(p, a);
    UniqueIdsDecide(a);
    OrdersAreWeak();
    SortIgnoresInputOrder(CandidateLess, Candidates(ix, a), Candidates(ix, b));
  }

  // ---------------------------------------------------------------------------
  // The blast radius of one root

  lemma {:induction false} AbsorbKeepsImpacts(acc: Assembly, fs: seq<Finding>)
    ensures AbsorbAll(acc, fs).direct == acc.direct && AbsorbAll(acc, fs).propagated == acc.propagated
  {
    if fs != [] {
      AbsorbKeepsImpacts(acc, fs[..|fs| - 1]);
    }
  }

  lemma {:induction false} SupportKeepsImpacts(cause: Finding, acc: Assembly, fs: seq<Finding>)
    ensures SupportAll(cause, acc, fs).direct == acc.direct && SupportAll(cause, acc, fs).propagated == acc.propagated
  {
    if fs != [] {
      SupportKeepsImpacts(cause, acc, fs[..|fs| - 1]);
    }
  }

  predicate Shown(w: World, ix: Index, path: GraphPath)
  {
    ImpactMessage(w, ix, path.resource) != ""
  }

  ghost predicate FromPaths(w: World, ix: Index, paths: seq<GraphPath>, impact: Impact)
  {
    exists p :: p in paths && Shown(w, ix, p) && impact == ImpactOf(w, ix, p)
  }

  ghost predicate DistinctPaths(paths: seq<GraphPath>)
  {
    forall i, j :: 0 <= i < j < |paths| ==> paths[i].resource != paths[j].resource
  }

  ghost predicate DistinctImpacts(impacts: seq<Impact>)
  {
    forall i, j :: 0 <= i < j < |impacts| ==> impacts[i].resource != impacts[j].resource
  }

  /** The impacts of one kind, direct or propagated, are exactly the shown paths
      of that kind, once each. */
  ghost predicate ImpactList(w: World, ix: Index, paths: seq<GraphPath>, impacts: seq<Impact>, direct: bool)
  {
    && (forall p :: p in paths && Shown(w, ix, p) && (|p.path| == 2) == direct ==> ImpactOf(w, ix, p) in impacts)
    && (forall m :: m in impacts ==> (m.depth == 1) == direct && FromPaths(w, ix, paths, m))
    && DistinctImpacts(impacts)
  }

  ghost predicate SplitByDepth(w: World, ix: Index, paths: seq<GraphPath>, direct: seq<Impact>, propagated: seq<Impact>)
  {
    ImpactList(w, ix, paths, direct, true) && ImpactList(w, ix, paths, propagated, false)
  }

  lemma AddPathToList(w: World, ix: Index, paths: seq<GraphPath>, path: GraphPath, impacts: seq<Impact>, direct: bool)
    requires ImpactList(w, ix, paths, impacts, direct)
    requires forall p :: p in paths ==> p.resource != path.resource
    ensures var m := ImpactOf(w, ix, path);
            ImpactList(w, ix, paths + [path],
                       if Shown(w, ix, path) && (|path.path| == 2) == direct then impacts + [m] else impacts, direct)
  {
  }

  lemma SplitGrows(w: World, ix: Index, acc: Assembly, paths: seq<GraphPath>, path: GraphPath)
    requires SplitByDepth(w, ix, paths, acc.direct, acc.propagated)
    requires forall p :: p in paths ==> p.resource != path.resource
    ensures var a := AddImpact(w, ix, acc, path); SplitByDepth(w, ix, paths + [path], a.direct, a.propagated)
  {
    AbsorbKeepsImpacts(acc, Degraded(ix, path.resource));
    AddPathToList(w, ix, paths, path, acc.direct, true);
    AddPathToList(w, ix, paths, path, acc.propagated, false);
    assert ImpactOf(w, ix, path).depth == |path.path| - 1;
    hide ImpactList, ImpactOf, ImpactMessage, AbsorbAll, Degraded;
  }

  lemma {:induction false} ImpactsArePaths(w: World, ix: Index, acc: Assembly, paths: seq<GraphPath>)
    requires acc.direct == [] && acc.propagated == [] && DistinctPaths(paths)
    ensures var a := AddImpacts(w, ix, acc, paths); SplitByDepth(w, ix, paths, a.direct, a.propagated)
  {
    hide ImpactOf, ImpactMessage, Degraded, AddImpact;
    if paths != [] {
      hide ImpactList;
      var n := |paths| - 1;
      var init, path := paths[..n], paths[n];
      ImpactsArePaths(w, ix, acc, init);
      assert paths == init + [path];
      forall p | p in init ensures p.resource != path.resource {
        var i :| 0 <= i < n && init[i] == p;
        assert paths[i] == p;
      }
      SplitGrows(w, ix, AddImpacts(w, ix, acc, init), init, path);
    }
  }

  lemma {:induction false} CountDistinct(impacts: seq<Impact>)
    requires DistinctImpacts(impacts)
    ensures |ImpactResources(impacts)| == |impacts|
  {
    if impacts != [] {
      var n := |impacts| - 1;
      CountDistinct(impacts[..n]);
      assert impacts == impacts[..n] + [impacts[n]];
      assert ImpactResources(impacts) == ImpactResources(impacts[..n]) + {impacts[n].resource};
    }
  }

  ghost predicate ImpactIsShortest(g: Forward, start: string, key: string, m: Impact)
  {
    && IsPath(g, start, key, m.path, m.pathRelations)
    && |m.path| == m.depth + 1 && m.path[|m.path| - 1] == m.resource
    && forall path, relations :: IsPath(g, start, key, path, relations) && path[|path| - 1] == m.resource
         ==> |m.path| <= |path|
  }

  /** One impact per degraded resource that the cause reaches, with a shortest
      real path of the graph; a missing key only follows matching first edges. */
  lemma BlastRadius(w: World, ix: Index, cause: Finding)
    ensures var r, key := RootOf(w, ix, cause), RequiredKey(cause);
            && (forall v :: v in ImpactResources(r.direct + r.propagated) <==>
                  v != cause.resource && Reaches(w.graph, cause.resource, key, v) && ImpactMessage(w, ix, v) != "")
            && (forall m :: m in r.direct + r.propagated ==>
                  ImpactIsShortest(w.graph, cause.resource, key, m) && (m.depth == 1 <==> m in r.direct))
            && |ImpactResources(r.direct + r.propagated)| == |r.direct| + |r.propagated|
  {
    var r, key := RootOf(w, ix, cause), RequiredKey(cause);
    var g, start := w.graph, cause.resource;
    var paths := DescendantsOf(g, start, key);
    DescendantsCorrect(g, start, key);
    SupportKeepsImpacts(cause, Opening(w, cause), At(ix, start));
    ImpactsArePaths(w, ix, SupportAll(cause, Opening(w, cause), At(ix, start)), paths);
    assert SplitByDepth(w, ix, paths, r.direct, r.propagated);
    hide RootOf, ImpactOf, ImpactMessage, DescendantsOf, ShortestPaths, SplitByDepth;
    var impacts := r.direct + r.propagated;
    ImpactsCover(w, ix, start, key, r.direct, r.propagated);
    forall m | m in impacts ensures ImpactIsShortest(g, start, key, m) && (m.depth == 1 <==> m in r.direct) {
      ImpactIsReal(w, ix, start, key, r.direct, r.propagated, m);
    }
    SplitIsDistinct(w, ix, paths, r.direct, r.propagated);
    CountDistinct(impacts);
  }

  lemma ImpactsCover(w: World, ix: Index, start: string, key: string, direct: seq<Impact>, propagated: seq<Impact>)
    requires SplitByDepth(w, ix, DescendantsOf(w.graph, start, key), direct, propagated)
    ensures forall v :: v in ImpactResources(direct + propagated) <==>
              v != start && Reaches(w.graph, start, key, v) && ImpactMessage(w, ix, v) != ""
  {
    var paths, impacts := DescendantsOf(w.graph, start, key), direct + propagated;
    hide DescendantsOf, ImpactMessage, Reaches;
    forall v ensures v in ImpactResources(impacts) <==>
                       v != start && Reaches(w.graph, start, key, v) && ImpactMessage(w, ix, v) != ""
    {
      DescendantsAreReachable(w.graph, start, key, v);
      if v in ImpactResources(impacts) {
        var m :| m in impacts && m.resource == v;
        assert m in direct || m in propagated;
        var p :| p in paths && Shown(w, ix, p) && m == ImpactOf(w, ix, p);
      }
      if v in Resources(paths) && ImpactMessage(w, ix, v) != "" {
        var p :| p in paths && p.resource == v;
        assert Shown(w, ix, p);
        assert ImpactOf(w, ix, p) in impacts;
      }
    }
  }

  lemma ImpactIsReal(w: World, ix: Index, start: string, key: string, direct: seq<Impact>, propagated: seq<Impact>, m: Impact)
    requires SplitByDepth(w, ix, DescendantsOf(w.graph, start, key), direct, propagated) && m in direct + propagated
    ensures ImpactIsShortest(w.graph, start, key, m) && (m.depth == 1 <==> m in direct)
  {
    var g, paths := w.graph, DescendantsOf(w.graph, start, key);
    DescendantsCorrect(g, start, key);
    hide DescendantsOf, ImpactMessage, IsPath, ShortestPaths;
    assert m in direct || m in propagated;
    assert (m.depth == 1) == (m in direct);
    var p :| p in paths && Shown(w, ix, p) && m == ImpactOf(w, ix, p);
    hide ImpactList;
    var i :| 0 <= i < |paths| && paths[i] == p;
    PathIsShortest(g, start, key, paths, i);
  }

  lemma PathIsShortest(g: Forward, start: string, key: string, paths: seq<GraphPath>, i: nat)
    requires ShortestPaths(g, start, key, paths) && i < |paths|
    ensures IsPathTo(g, start, key, paths[i])
    ensures forall path, relations :: IsPath(g, start, key, path, relations) && path[|path| - 1] == paths[i].resource
              ==> |paths[i].path| <= |path|
  {
  }

  lemma SplitIsDistinct(w: World, ix: Index, paths: seq<GraphPath>, direct: seq<Impact>, propagated: seq<Impact>)
    requires SplitByDepth(w, ix, paths, direct, propagated) && DistinctPaths(paths)
    ensures DistinctImpacts(direct + propagated)
  {
  }

  // ---------------------------------------------------------------------------
  // Health after correlation

  /** A root caused by an Issue costs 8 points and half a point per impact,
      rounded up, at most 14; every other root is free. */
  lemma PenaltyRange(w: World, ix: Index, cause: Finding)
    ensures var r := RootOf(w, ix, cause);
            if cause.severity == Issue
            then r.penalty == 8 + Min(6, (|r.direct| + |r.propagated| + 1) / 2) && 8 <= r.penalty <= 14
            else r.penalty == 0
  {
    BlastRadius(w, ix, cause);
  }

  /** Only a log finding that is mere evidence can be an Issue outside every
      Issue-caused root. */
  lemma UngroupedAreLogs(w: World, findings: seq<Finding>, f: Finding)
    requires WellFormed(findings)
    requires f in UngroupedIssues(findings, CorrelateOf(w, findings))
    ensures f in findings && f.severity == Issue && IsLog(f.code) && OnlyEvidence(IndexOf(findings), f)
  {
    var roots := CorrelateOf(w, findings);
    var grouped := Grouped(roots);
    FilterMembers((g: Finding) => g.severity == Issue && g.id !in grouped, findings);
    assert f in findings && f.severity == Issue && f.id !in grouped;
    CausesCharacterised(w, findings, f);
    CausesAreDistinct(w, findings);
    hide CorrelateOf, SymptomCode, OnlyEvidence, RootOf;
    NotGrouped(roots, f.id);
    forall i | 0 <= i < |roots| ensures roots[i].cause != f {
      CauseIsRelated(w, IndexOf(findings), roots[i].cause);
    }
    forall i | 0 <= i < |roots| ensures !(roots[i].confirmed && f.id in roots[i].related) {
      ConfirmedIsStrong(w, IndexOf(findings), roots[i].cause);
    }
  }

  lemma NotGrouped(roots: seq<RootCause>, id: string)
    requires id !in Grouped(roots)
    ensures forall i :: 0 <= i < |roots| && roots[i].cause.severity == Issue ==> id !in roots[i].related
  {
  }

  lemma CauseIsRelated(w: World, ix: Index, cause: Finding)
    requires IsTrimmed(cause.id)
    ensures RootOf(w, ix, cause).cause == cause && cause.id in RootOf(w, ix, cause).related
  {
    UniqueKeepsTrimmed([cause.id] + Assemble(w, ix, cause).related, cause.id);
  }

  function IssueRoots(roots: seq<RootCause>): nat
  {
    if roots == [] then 0
    else IssueRoots(roots[..|roots| - 1]) + if roots[|roots| - 1].cause.severity == Issue then 1 else 0
  }

  lemma {:induction false} PenaltiesBounded(w: World, ix: Index, roots: seq<RootCause>)
    requires forall i :: 0 <= i < |roots| ==> roots[i] == RootOf(w, ix, roots[i].cause)
    ensures 8 * IssueRoots(roots) <= SumPenalties(roots) <= 14 * IssueRoots(roots)
  {
    if roots != [] {
      PenaltiesBounded(w, ix, roots[..|roots| - 1]);
      PenaltyRange(w, ix, roots[|roots| - 1].cause);
    }
  }

  /** Without Issue log findings, nothing is charged outside the roots, and k
      Issue-caused roots cost between 8k and 14k points. */
  lemma HealthAfterCorrelate(w: World, findings: seq<Finding>)
    requires WellFormed(findings)
    requires forall f :: f in findings && f.severity == Issue ==> !IsLog(f.code)
    ensures var roots := CorrelateOf(w, findings);
            var health, k := HealthOf(None, findings, roots), IssueRoots(roots);
            && UngroupedIssues(findings, roots) == []
            && health == Max(0, 100 - SumPenalties(roots))
            && Max(0, 100 - 14 * k) <= health <= Max(0, 100 - 8 * k)
  {
    var roots := CorrelateOf(w, findings);
    var ungrouped := UngroupedIssues(findings, roots);
    hide CorrelateOf, RootOf, UngroupedIssues, OnlyEvidence, IsLog;
    CausesAreDistinct(w, findings);
    PenaltiesBounded(w, IndexOf(findings), roots);
    if ungrouped != [] {
      UngroupedAreLogs(w, findings, ungrouped[0]);
      assert false;
    }
  }
}
