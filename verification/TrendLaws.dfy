/** What a flap is, stated on the records of the samples. */
module TrendLaws {
  import opened Text
  import opened Seqs
  import opened Report
  import opened DiffLaws
  import opened Trends
  import opened StateLaws

  // ---------------------------------------------------------------------------
  // Samples

  /** The newest samples are kept: as many as the window, but two at least. */
  lemma RecentIs(samples: seq<Document>, window: int)
    ensures var recent := Recent(samples, window);
            && |recent| == (if |samples| <= 2 || |samples| <= window then |samples| else if window < 2 then 2 else window)
            && forall i :: |samples| - |recent| <= i < |samples| ==> samples[i] == recent[i - (|samples| - |recent|)]
  {
  }

  /** An unacknowledged evaluated finding that no history rule made. */
  predicate IsLive(r: Record)
  {
    && r.code != "" && r.resource != "" && r.severity != "unavailable" && !r.acknowledged
    && !("K8S.HISTORY." <= r.code)
  }

  /** The sample has a live finding with the key. */
  ghost predicate Shows(doc: Document, key: string)
  {
    exists r :: r in doc.findings && IsLive(r) && r.code + "\0" + r.resource == key
  }

  /** The last live finding of a sample with its key. */
  ghost predicate LastLive(findings: seq<Record>, r: Record)
  {
    exists i :: && 0 <= i < |findings| && findings[i] == r && IsLive(r)
                && forall j :: i < j < |findings| && IsLive(findings[j]) ==>
                                 findings[j].code + "\0" + findings[j].resource != r.code + "\0" + r.resource
  }

  lemma {:induction false} ActiveAre(findings: seq<Record>, key: string)
    ensures key in ActiveFindings(findings)
            <==> exists r :: r in findings && IsLive(r) && r.code + "\0" + r.resource == key
    ensures key in ActiveFindings(findings) ==>
              LastLive(findings, ActiveFindings(findings)[key]) && TrendKey(ActiveFindings(findings)[key]) == key
  {
    if findings != [] {
      var n := |findings| - 1;
      var init, last := findings[..n], findings[n];
      assert findings == init + [last];
      ActiveAre(init, key);
      hide ActiveFindings;
      LastLiveGrows(init, last);
      ActiveStep(findings, key);
      if key in ActiveFindings(init) {
        var r := ActiveFindings(init)[key];
        assert init + [last] == findings;
      }
    }
  }

  lemma ActiveStep(findings: seq<Record>, key: string)
    requires findings != []
    ensures var init, last := findings[..|findings| - 1], findings[|findings| - 1];
            && (key in ActiveFindings(findings) <==> key in ActiveFindings(init) || (IsLive(last) && TrendKey(last) == key))
            && (key in ActiveFindings(findings) ==>
                  ActiveFindings(findings)[key]
                  == if IsLive(last) && TrendKey(last) == key then last else ActiveFindings(init)[key])
  {
  }

  lemma LastLiveGrows(init: seq<Record>, last: Record)
    ensures IsLive(last) ==> LastLive(init + [last], last)
    ensures forall r :: LastLive(init, r) && !(IsLive(last) && TrendKey(last) == TrendKey(r)) ==> LastLive(init + [last], r)
  {
    var all := init + [last];
    if IsLive(last) {
      assert all[|init|] == last;
    }
    forall r | LastLive(init, r) && !(IsLive(last) && TrendKey(last) == TrendKey(r)) ensures LastLive(all, r) {
      var i :| && 0 <= i < |init| && init[i] == r && IsLive(r)
               && forall j :: i < j < |init| && IsLive(init[j]) ==>
                                init[j].code + "\0" + init[j].resource != r.code + "\0" + r.resource;
      assert all[i] == r;
      forall j | i < j < |all| && IsLive(all[j]) ensures all[j].code + "\0" + all[j].resource != r.code + "\0" + r.resource {
        if j < |init| {
          assert all[j] == init[j];
        }
      }
    }
  }

  /** A sample says of a key: there is a live finding, or it could not be evaluated, or neither. */
  lemma StateIs(doc: Document, key: string, latest: Record)
    ensures StateIn(doc, key, latest) == Abnormal <==> Shows(doc, key)
    ensures StateIn(doc, key, latest) == NotEvaluated <==> !Shows(doc, key) && Blocked(doc, latest)
    ensures StateIn(doc, key, latest) == Normal <==> !Shows(doc, key) && !Blocked(doc, latest)
  {
    ActiveAre(doc.findings, key);
    BlockedExactly(doc, latest);
    hide ActiveFindings, BlockersOf, Blocked;
  }

  /** The finding that a flap names is the key's last one in the newest sample that has any. */
  lemma {:induction false} LatestIs(samples: seq<Document>, key: string)
    ensures Latest(samples, key).Some? <==> exists i :: 0 <= i < |samples| && Shows(samples[i], key)
    ensures Latest(samples, key).Some? ==>
              exists i :: && 0 <= i < |samples| && LastLive(samples[i].findings, Latest(samples, key).value)
                          && TrendKey(Latest(samples, key).value) == key
                          && forall j :: i < j < |samples| ==> !Shows(samples[j], key)
  {
    hide LastLive;
    if samples != [] {
      var n := |samples| - 1;
      ActiveAre(samples[n].findings, key);
      LatestIs(samples[..n], key);
      hide ActiveFindings, Shows, TrendKey;
      if !Shows(samples[n], key) && Latest(samples[..n], key).Some? {
        var i :| && 0 <= i < n && LastLive(samples[..n][i].findings, Latest(samples[..n], key).value)
                 && TrendKey(Latest(samples[..n], key).value) == key
                 && forall j :: i < j < n ==> !Shows(samples[..n][j], key);
        assert forall j :: i < j < |samples| ==> !Shows(samples[j], key) by {
          forall j | i < j < |samples| ensures !Shows(samples[j], key) {
            if j < n {
              assert samples[..n][j] == samples[j];
            }
          }
        }
      }
      if i :| 0 <= i < |samples| && Shows(samples[i], key) {
        if i < n {
          assert samples[..n][i] == samples[i];
        }
      }
    }
  }

  // ---------------------------------------------------------------------------
  // Transitions

  predicate TurnsAt(states: seq<Trends.State>, i: int)
    requires 1 <= i < |states|
  {
    (states[i - 1] == Abnormal && states[i] == Normal) || (states[i - 1] == Normal && states[i] == Abnormal)
  }

  /** The places where one evaluated state follows the other. */
  function TurningPoints(states: seq<Trends.State>): set<int>
  {
    set i: int | 1 <= i < |states| && TurnsAt(states, i)
  }

  lemma {:induction false} TransitionsAre(states: seq<Trends.State>)
    ensures Transitions(states) == |TurningPoints(states)|
  {
    if |states| < 2 {
      assert TurningPoints(states) == {};
    } else {
      var n := |states| - 1;
      var init := states[..n];
      TransitionsAre(init);
      forall i | 1 <= i < n ensures TurnsAt(states, i) <==> TurnsAt(init, i) {}
      assert Turns(states[n - 1], states[n]) <==> TurnsAt(states, n);
      hide TurnsAt, Transitions, Turns;
      assert TurningPoints(states) == if TurnsAt(states, n) then TurningPoints(init) + {n} else TurningPoints(init);
    }
  }

  lemma UnknownsAre(states: seq<Trends.State>)
    ensures UnknownStates(states) == |set i | 0 <= i < |states| && states[i] == NotEvaluated|
  {
    var p := (s: Trends.State) => s == NotEvaluated;
    FilterCounts(p, states);
    assert Positions(p, states) == set i | 0 <= i < |states| && states[i] == NotEvaluated;
  }

  lemma StatesAt(samples: seq<Document>, key: string, latest: Record, i: nat)
    requires i < |samples|
    ensures |States(samples, key, latest)| == |samples| && States(samples, key, latest)[i] == StateIn(samples[i], key, latest)
  {
    MapAt((doc: Document) => StateIn(doc, key, latest), samples, i);
  }
}
