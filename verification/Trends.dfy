/** Trends over the recent samples of the history: flapping findings and growing restart counts. */
module Trends {
  import opened Text
  import opened Seqs
  import opened Keys
  import opened Model
  import opened Report

  datatype State = Abnormal | Normal | NotEvaluated

  datatype Flap = Flap(latest: Record, transitions: nat, states: seq<State>)

  /** The last samples, two at least. */
  function Recent(samples: seq<Document>, window: int): seq<Document>
  {
    var n := Max(window, 2);
    if |samples| > n then samples[|samples| - n..] else samples
  }

  predicate IsActive(r: Record)
  {
    && r.code != "" && r.resource != "" && !HasPrefix(r.code, "K8S.HISTORY.")
    && r.severity != "unavailable" && !r.acknowledged
  }

  function TrendKey(r: Record): string
  {
    r.code + "\0" + r.resource
  }

  function ActiveFindings(findings: seq<Record>): map<string, Record>
  {
    if findings == [] then map[]
    else
      var rest, last := ActiveFindings(findings[..|findings| - 1]), findings[|findings| - 1];
      if IsActive(last) then rest[TrendKey(last) := last] else rest
  }

  method ActiveFindingMap(doc: Document) returns (result: map<string, Record>)
    ensures result == ActiveFindings(doc.findings)
  {
    result := map[];
    for i := 0 to |doc.findings|
      invariant result == ActiveFindings(doc.findings[..i])
    {
      PrefixStep(doc.findings, i);
      if !IsActive(doc.findings[i]) {
        continue;
      }
      result := result[TrendKey(doc.findings[i]) := doc.findings[i]];
    }
    assert doc.findings[..|doc.findings|] == doc.findings;
  }

  // ---------------------------------------------------------------------------
  // States and transitions

  /** The newest active record of a key. */
  function Latest(samples: seq<Document>, key: string): Option<Record>
  {
    if samples == [] then None
    else
      var active := ActiveFindings(samples[|samples| - 1].findings);
      if key in active then Some(active[key]) else Latest(samples[..|samples| - 1], key)
  }

  function StateIn(doc: Document, key: string, latest: Record): State
  {
    if key in ActiveFindings(doc.findings) then Abnormal
    else if EvaluationUnavailable(doc, latest) then NotEvaluated
    else Normal
  }

  function States(samples: seq<Document>, key: string, latest: Record): seq<State>
  {
    Map((doc: Document) => StateIn(doc, key, latest), samples)
  }

  predicate Turns(before: State, after: State)
  {
    before != NotEvaluated && after != NotEvaluated && before != after
  }

  function Transitions(states: seq<State>): (n: nat)
    ensures n <= |states|
  {
    if |states| < 2 then 0
    else
      var n := |states| - 1;
      Transitions(states[..n]) + if Turns(states[n - 1], states[n]) then 1 else 0
  }

  method CountTransitions(states: seq<State>) returns (transitions: nat)
    ensures transitions == Transitions(states)
  {
    transitions := 0;
    if |states| == 0 {
      return;
    }
    for index := 1 to |states|
      invariant transitions == Transitions(states[..index])
    {
      PrefixStep(states, index);
      if Turns(states[index - 1], states[index]) {
        transitions := transitions + 1;
      }
    }
    assert states[..|states|] == states;
  }

  function FlapOf(samples: seq<Document>, key: string, threshold: int): Option<Flap>
  {
    match Latest(samples, key)
    case None => None
    case Some(latest) =>
      var states := States(samples, key, latest);
      var n := Transitions(states);
      if n < threshold || Abnormal !in states || Normal !in states then None else Some(Flap(latest, n, states))
  }

  function KeysIn(samples: seq<Document>): set<string>
  {
    if samples == [] then {}
    else KeysIn(samples[..|samples| - 1]) + ActiveFindings(samples[|samples| - 1].findings).Keys
  }

  /** The flaps of a sorted list of keys. */
  function Flaps(samples: seq<Document>, keys: seq<string>, threshold: int): seq<Flap>
  {
    if keys == [] then []
    else
      var n := |keys| - 1;
      var before := Flaps(samples, keys[..n], threshold);
      match FlapOf(samples, keys[n], threshold)
      case None => before
      case Some(flap) => before + [flap]
  }

  function UnknownStates(states: seq<State>): nat
  {
    |Filter((s: State) => s == NotEvaluated, states)|
  }

  /** The evaluations that were not possible, over all keys. */
  function UnknownEvaluations(samples: seq<Document>, keys: seq<string>): nat
  {
    if keys == [] then 0
    else
      var n := |keys| - 1;
      UnknownEvaluations(samples, keys[..n])
      + match Latest(samples, keys[n]) case None => 0 case Some(latest) => UnknownStates(States(samples, keys[n], latest))
  }

  method BuildStates(samples: seq<Document>, key: string, latest: Record) returns (states: seq<State>, unknown: nat)
    ensures states == States(samples, key, latest) && unknown == UnknownStates(states)
  {
    states, unknown := [], 0;
    for index := 0 to |samples|
      invariant states == States(samples[..index], key, latest) && unknown == UnknownStates(states)
    {
      PrefixStep(samples, index);
      var active := ActiveFindingMap(samples[index]);
      hide ActiveFindings;
      var state := Normal;
      if key in active {
        state := Abnormal;
      } else if EvaluationUnavailable(samples[index], latest) {
        state := NotEvaluated;
        unknown := unknown + 1;
      }
      assert (states + [state])[..index] == states;
      states := states + [state];
    }
    assert samples[..|samples|] == samples;
  }

  method FindLatest(samples: seq<Document>, key: string) returns (latest: Option<Record>)
    ensures latest == Latest(samples, key)
  {
    var index: nat := |samples|;
    assert samples[..|samples|] == samples;
    while index > 0
      invariant index <= |samples|
      invariant Latest(samples, key) == Latest(samples[..index], key)
    {
      assert samples[..index][..index - 1] == samples[..index - 1];
      index := index - 1;
      var active := ActiveFindingMap(samples[index]);
      if key in active {
        return Some(active[key]);
      }
    }
    return None;
  }

  method AnalyzeFlaps(previous: seq<Document>, current: Document, window: int, threshold: int)
    returns (flaps: seq<Flap>, unknown: nat)
    ensures var samples := Recent(previous + [current], window);
            && flaps == Flaps(samples, SortedKeys(KeysIn(samples)), threshold)
            && unknown == UnknownEvaluations(samples, SortedKeys(KeysIn(samples)))
  {
    var samples := Recent(previous + [current], window);
    var keys: set<string> := {};
    for i := 0 to |samples|
      invariant keys == KeysIn(samples[..i])
    {
      PrefixStep(samples, i);
      var active := ActiveFindingMap(samples[i]);
      keys := keys + active.Keys;
    }
    assert samples[..|samples|] == samples;
    var sorted := SortedKeys(keys);
    flaps, unknown := [], 0;
    for i := 0 to |sorted|
      invariant flaps == Flaps(samples, sorted[..i], threshold)
      invariant unknown == UnknownEvaluations(samples, sorted[..i])
    {
      PrefixStep(sorted, i);
      hide ActiveFindings, KeysIn, SortedKeys, States, UnknownStates, Latest;
      var latest := FindLatest(samples, sorted[i]);
      if latest.None? {
        continue;
      }
      var states, unknownHere := BuildStates(samples, sorted[i], latest.value);
      unknown := unknown + unknownHere;
      var transitions := CountTransitions(states);
      if transitions < threshold || Abnormal !in states || Normal !in states {
        continue;
      }
      flaps := flaps + [Flap(latest.value, transitions, states)];
    }
    assert sorted[..|sorted|] == sorted;
  }

  // ---------------------------------------------------------------------------
  // Laws of flaps

  /** There are fewer transitions than samples, and each shows both states. */
  lemma {:induction false} TransitionsShowBothStates(states: seq<State>)
    ensures |states| > 0 ==> Transitions(states) <= |states| - 1
    ensures Transitions(states) > 0 ==> Abnormal in states && Normal in states
  {
    if |states| >= 2 {
      var n := |states| - 1;
      TransitionsShowBothStates(states[..n]);
      assert forall x :: x in states[..n] ==> x in states;
      assert states[n - 1] in states && states[n] in states;
    }
  }

  /** With a positive threshold the count alone decides, and no flap has more
      transitions than the window allows. */
  lemma FlapIsCount(samples: seq<Document>, key: string, window: int, threshold: int)
    requires threshold >= 1 && window >= 2
    ensures var recent := Recent(samples, window);
            var latest := Latest(recent, key);
            && (FlapOf(recent, key, threshold).Some? <==>
                  latest.Some? && Transitions(States(recent, key, latest.value)) >= threshold)
            && (FlapOf(recent, key, threshold).Some? ==> threshold <= window - 1)
  {
    var recent := Recent(samples, window);
    if Latest(recent, key).Some? {
      TransitionsShowBothStates(States(recent, key, Latest(recent, key).value));
    }
  }

  function Opposite(s: State): State { if s == Abnormal then Normal else Abnormal }

  function Alternating(n: nat): (states: seq<State>)
    ensures |states| == n && forall s :: s in states ==> s != NotEvaluated
  {
    if n == 0 then [] else if n == 1 then [Abnormal]
    else Alternating(n - 1) + [Opposite(Alternating(n - 1)[n - 2])]
  }

  /** Every threshold below the window can be reached. */
  lemma {:induction false} AlternationReachesBound(n: nat)
    requires n >= 1
    ensures Transitions(Alternating(n)) == n - 1
  {
    if n >= 2 {
      AlternationReachesBound(n - 1);
      var before, states := Alternating(n - 1), Alternating(n);
      assert states == before + [Opposite(before[n - 2])] && before[n - 2] in before;
      hide Alternating;
      assert states[..n - 1] == before;
    }
  }

  /** An active finding for examples of histories. */
  const FLAPPING := Record("id", "K8S.POD.NOT_READY", "issue", "Pod", "Pod/a/b", "", false, "")

  function DocumentFor(s: State): Document
  {
    if s == Abnormal then Document([FLAPPING], "") else Document([], "")
  }

  function AlternatingDocuments(n: nat): seq<Document>
  {
    Map(DocumentFor, Alternating(n))
  }

  lemma DocumentShowsState(s: State)
    requires s != NotEvaluated
    ensures StateIn(DocumentFor(s), TrendKey(FLAPPING), FLAPPING) == s
    ensures TrendKey(FLAPPING) in ActiveFindings(DocumentFor(s).findings) <==> s == Abnormal
    ensures s == Abnormal ==> ActiveFindings(DocumentFor(s).findings)[TrendKey(FLAPPING)] == FLAPPING
  {
    assert [FLAPPING][..0] == [];
    assert "K8S.HISTORY."[4] != "K8S.POD.NOT_READY"[4];
    assert Filter((r: Record) => r.severity == "unavailable" && r.section == FLAPPING.section, []) == [];
  }

  lemma {:induction false} AlternatingLatest(n: nat)
    requires n >= 1
    ensures Latest(AlternatingDocuments(n), TrendKey(FLAPPING)) == Some(FLAPPING)
  {
    var states, docs := Alternating(n), AlternatingDocuments(n);
    MapAt(DocumentFor, states, n - 1);
    assert states[n - 1] in states;
    DocumentShowsState(states[n - 1]);
    if n >= 2 {
      AlternatingLatest(n - 1);
      assert states[..n - 1] == Alternating(n - 1);
      assert docs[..n - 1] == AlternatingDocuments(n - 1);
    } else {
      assert states == [Abnormal];
    }
    hide ActiveFindings, TrendKey, DocumentFor;
  }

  lemma AlternatingStates(n: nat)
    ensures States(AlternatingDocuments(n), TrendKey(FLAPPING), FLAPPING) == Alternating(n)
  {
    var states, docs := Alternating(n), AlternatingDocuments(n);
    hide StateIn, DocumentFor, Alternating, Map, TrendKey;
    forall i | 0 <= i < n ensures States(docs, TrendKey(FLAPPING), FLAPPING)[i] == states[i] {
      MapAt(DocumentFor, states, i);
      MapAt((doc: Document) => StateIn(doc, TrendKey(FLAPPING), FLAPPING), docs, i);
      assert states[i] in states;
      DocumentShowsState(states[i]);
    }
  }

  /** The analysis of some documents in the window reports a flap. */
  ghost predicate CanFlap(window: int, threshold: int)
  {
    exists docs, key :: FlapOf(Recent(docs, window), key, threshold).Some?
  }

  /** With a positive threshold, a flap can be reported if and only if the threshold
      is below the window, which is the rule on the two settings. */
  lemma FlapNeedsWindow(window: int, threshold: int)
    requires window >= 2 && threshold >= 1
    ensures CanFlap(window, threshold) <==> threshold < window
  {
    hide Recent, FlapOf;
    if CanFlap(window, threshold) {
      var docs, key :| FlapOf(Recent(docs, window), key, threshold).Some?;
      FlapIsCount(docs, key, window, threshold);
    }
    if threshold < window {
      AlternationFlaps(window, threshold);
    }
  }

  /** Documents that report and lose one finding in turn flap at every threshold below the window. */
  lemma AlternationFlaps(window: int, threshold: int)
    requires 1 <= threshold < window
    ensures FlapOf(Recent(AlternatingDocuments(window), window), TrendKey(FLAPPING), threshold).Some?
  {
    AlternatingLatest(window);
    AlternatingStates(window);
    AlternationReachesBound(window);
    TransitionsShowBothStates(Alternating(window));
    hide Alternating, States, Latest, Transitions;
  }

  ghost predicate HasFlap(samples: seq<Document>, keys: seq<string>, threshold: int, flap: Flap)
  {
    exists key :: key in keys && FlapOf(samples, key, threshold) == Some(flap)
  }

  lemma HasFlapGrows(samples: seq<Document>, keys: seq<string>, key: string, threshold: int, flap: Flap)
    ensures HasFlap(samples, keys + [key], threshold, flap)
            <==> HasFlap(samples, keys, threshold, flap) || FlapOf(samples, key, threshold) == Some(flap)
  {
    hide FlapOf;
    if k :| k in keys && FlapOf(samples, k, threshold) == Some(flap) {
      assert k in keys + [key];
    }
    assert key in keys + [key];
  }

  /** The reported flaps are those of the keys that occur, in sorted order. */
  lemma {:induction false} FlapsMembers(samples: seq<Document>, keys: seq<string>, threshold: int, flap: Flap)
    ensures flap in Flaps(samples, keys, threshold) <==> HasFlap(samples, keys, threshold, flap)
  {
    hide FlapOf;
    if keys != [] {
      hide Flaps, HasFlap;
      var n := |keys| - 1;
      FlapsMembers(samples, keys[..n], threshold, flap);
      FlapsLast(samples, keys, threshold, flap);
      assert keys == keys[..n] + [keys[n]];
      HasFlapGrows(samples, keys[..n], keys[n], threshold, flap);
    }
  }

  lemma FlapsLast(samples: seq<Document>, keys: seq<string>, threshold: int, flap: Flap)
    requires keys != []
    ensures var n := |keys| - 1;
            flap in Flaps(samples, keys, threshold)
            <==> flap in Flaps(samples, keys[..n], threshold) || FlapOf(samples, keys[n], threshold) == Some(flap)
  {
    hide FlapOf;
  }

  // ---------------------------------------------------------------------------
  // Restart counts

  function Rise(before: int, after: int): nat { if after > before then after - before else 0 }

  function Rises(counts: seq<int>): nat
  {
    if |counts| < 2 then 0
    else Rises(counts[..|counts| - 1]) + Rise(counts[|counts| - 2], counts[|counts| - 1])
  }

  function Increases(counts: seq<int>): nat
  {
    if |counts| < 2 then 0
    else Increases(counts[..|counts| - 1]) + if counts[|counts| - 1] > counts[|counts| - 2] then 1 else 0
  }

  predicate NeverFalls(counts: seq<int>)
  {
    forall i :: 1 <= i < |counts| ==> counts[i - 1] <= counts[i]
  }

  lemma {:induction false} GrowthIsRises(counts: seq<int>)
    requires |counts| > 0
    ensures counts[|counts| - 1] - counts[0] <= Rises(counts)
    ensures counts[|counts| - 1] - counts[0] == Rises(counts) <==> NeverFalls(counts)
  {
    if |counts| >= 2 {
      var n := |counts| - 1;
      GrowthIsRises(counts[..n]);
      assert forall i :: 0 <= i < n ==> counts[..n][i] == counts[i];
      if NeverFalls(counts[..n]) && counts[n - 1] <= counts[n] {
        assert NeverFalls(counts);
      }
      if NeverFalls(counts) {
        assert counts[n - 1] <= counts[n] && NeverFalls(counts[..n]);
      }
    }
  }

  /** A growth is reported exactly for three or more counts that never fall, rise at
      least twice, and whose rises add up to the threshold. */
  method RestartTrend(counts: seq<int>, threshold: int) returns (growth: Option<int>)
    ensures growth == if |counts| >= 3 && NeverFalls(counts) && Increases(counts) >= 2 && Rises(counts) >= threshold
                      then Some(Rises(counts) as int) else None
  {
    if |counts| < 3 {
      return None;
    }
    var increases, decreasing := 0, false;
    assert counts[..1] == [counts[0]];
    for index := 1 to |counts|
      invariant increases == Increases(counts[..index])
      invariant decreasing <==> !NeverFalls(counts[..index])
    {
      PrefixStep(counts, index);
      assert forall i :: 0 <= i < index ==> counts[..index + 1][i] == counts[..index][i] == counts[i];
      if counts[index] > counts[index - 1] {
        increases := increases + 1;
      }
      if counts[index] < counts[index - 1] {
        decreasing := true;
        assert !NeverFalls(counts[..index + 1]) by {
          assert counts[..index + 1][index] < counts[..index + 1][index - 1];
        }
      }
    }
    assert counts[..|counts|] == counts;
    var total := counts[|counts| - 1] - counts[0];
    GrowthIsRises(counts);
    if increases < 2 || decreasing || total < threshold {
      return None;
    }
    return Some(total);
  }
}
