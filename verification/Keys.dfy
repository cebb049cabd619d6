/** The keys of a Go map in the order that sort.Strings gives them. */
module Keys {
  import opened Text

  lemma {:induction false} LeastExists(s: set<string>)
    requires s != {}
    ensures exists m :: IsLeast(m, s)
  {
    var x :| x in s;
    var rest := s - {x};
    if rest == {} {
      assert s == {x};
      assert IsLeast(x, s);
    } else {
      LeastExists(rest);
      var m :| IsLeast(m, rest);
      LessIsStrictTotalOrder();
      assert IsLeast(if Less(x, m) then x else m, s);
    }
  }

  predicate IsLeast(m: string, s: set<string>)
  {
    m in s && forall x | x in s :: m == x || Less(m, x)
  }

  lemma LeastUnique(s: set<string>)
    ensures forall a, b :: IsLeast(a, s) && IsLeast(b, s) ==> a == b
  {
    LessIsStrictTotalOrder();
  }

  function SortedKeys(s: set<string>): seq<string>
  {
    if s == {} then []
    else
      LeastExists(s);
      LeastUnique(s);
      var m :| m in s && IsLeast(m, s);
      [m] + SortedKeys(s - {m})
  }

  lemma SortedKeysStep(s: set<string>)
    requires s != {}
    ensures SortedKeys(s) != []
    ensures var k := SortedKeys(s)[0]; IsLeast(k, s) && SortedKeys(s) == [k] + SortedKeys(s - {k})
  {
  }

  lemma {:induction false} SortedKeysMembers(s: set<string>)
    ensures forall x :: x in SortedKeys(s) <==> x in s
    ensures |SortedKeys(s)| == |s|
    decreases s
  {
    hide Less;
    if s != {} {
      hide SortedKeys;
      SortedKeysStep(s);
      SortedKeysMembers(s - {SortedKeys(s)[0]});
    }
  }

  lemma {:induction false} SortedKeysMultiset(s: set<string>)
    ensures multiset(SortedKeys(s)) == multiset(s)
    decreases s
  {
    hide Less;
    if s != {} {
      hide SortedKeys;
      SortedKeysStep(s);
      var k := SortedKeys(s)[0];
      SortedKeysMultiset(s - {k});
      assert s == (s - {k}) + {k};
    }
  }

  lemma {:induction false} SortedKeysIncrease(s: set<string>)
    ensures forall i, j :: 0 <= i < j < |SortedKeys(s)| ==> Less(SortedKeys(s)[i], SortedKeys(s)[j])
    decreases s
  {
    hide Less;
    if s != {} {
      hide SortedKeys;
      SortedKeysStep(s);
      var rest := s - {SortedKeys(s)[0]};
      SortedKeysIncrease(rest);
      SortedKeysMembers(rest);
    }
  }

  /** Every key once, in increasing order. */
  lemma SortedKeysFacts(s: set<string>)
    ensures multiset(SortedKeys(s)) == multiset(s)
    ensures forall x :: x in SortedKeys(s) <==> x in s
    ensures |SortedKeys(s)| == |s|
    ensures forall i, j :: 0 <= i < j < |SortedKeys(s)| ==> Less(SortedKeys(s)[i], SortedKeys(s)[j])
  {
    hide SortedKeys, Less;
    SortedKeysMembers(s);
    SortedKeysMultiset(s);
    SortedKeysIncrease(s);
  }
}
