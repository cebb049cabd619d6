/** Filtering of sequences. */
module Seqs {

  /** The elements that satisfy p, in order. */
  function Filter<T>(p: T -> bool, s: seq<T>): (r: seq<T>)
    ensures |r| <= |s|
  {
    if s == [] then []
    else
      var r := Filter(p, s[..|s| - 1]);
      if p(s[|s| - 1]) then r + [s[|s| - 1]] else r
  }

  lemma {:induction false} FilterMultiplicity<T(!new)>(p: T -> bool, s: seq<T>, x: T)
    ensures multiset(Filter(p, s))[x] == if p(x) then multiset(s)[x] else 0
  {
    if s != [] {
      FilterMultiplicity(p, s[..|s| - 1], x);
      assert s == s[..|s| - 1] + [s[|s| - 1]];
    }
  }

  lemma {:induction false} FilterNone<T>(p: T -> bool, s: seq<T>)
    requires forall x :: x in s ==> !p(x)
    ensures Filter(p, s) == []
  {
    if s != [] {
      assert s[|s| - 1] in s;
      FilterNone(p, s[..|s| - 1]);
    }
  }

  lemma FilterMembers<T(!new)>(p: T -> bool, s: seq<T>)
    ensures forall x :: x in Filter(p, s) <==> x in s && p(x)
  {
  }

  lemma FilterPermutation<T(!new)>(p: T -> bool, a: seq<T>, b: seq<T>)
    requires multiset(a) == multiset(b)
    ensures multiset(Filter(p, a)) == multiset(Filter(p, b))
  {
    forall x ensures multiset(Filter(p, a))[x] == multiset(Filter(p, b))[x] {
      FilterMultiplicity(p, a, x);
      FilterMultiplicity(p, b, x);
    }
  }

  lemma SamePermutedMembers<T(!new)>(a: seq<T>, b: seq<T>)
    requires multiset(a) == multiset(b)
    ensures |a| == |b| && forall x :: x in a <==> x in b
  {
    assert |multiset(a)| == |a| && |multiset(b)| == |b|;
    forall x ensures x in a <==> x in b {
      assert x in a <==> x in multiset(a);
      assert x in b <==> x in multiset(b);
    }
  }

  /** The elements up to and including index i. */
  lemma PrefixStep<T>(s: seq<T>, i: nat)
    requires i < |s|
    ensures s[..i + 1][..i] == s[..i] && s[..i + 1][i] == s[i] && |s[..i + 1]| == i + 1
  {
  }

  function Map<T, U>(f: T -> U, s: seq<T>): (r: seq<U>)
    ensures |r| == |s|
  {
    if s == [] then [] else Map(f, s[..|s| - 1]) + [f(s[|s| - 1])]
  }

  lemma {:induction false} MapAt<T, U>(f: T -> U, s: seq<T>, i: nat)
    requires i < |s|
    ensures Map(f, s)[i] == f(s[i])
  {
    if i < |s| - 1 {
      MapAt(f, s[..|s| - 1], i);
    }
  }

  lemma MapMembers<T(!new), U(!new)>(f: T -> U, s: seq<T>)
    ensures forall y :: y in Map(f, s) <==> exists x :: x in s && f(x) == y
  {
  }

  /** How often x occurs in s. */
  ghost function Times<T>(x: T, s: seq<T>): nat
  {
    multiset(s)[x]
  }

  lemma MapTimes<T, U>(f: T -> U, s: seq<T>, x: T, y: U)
    ensures Times(y, Map(f, s + [x])) == Times(y, Map(f, s)) + if f(x) == y then 1 else 0
  {
  }

  lemma TimesConcat<T>(x: T, s: seq<T>, t: seq<T>)
    ensures Times(x, s + t) == Times(x, s) + Times(x, t)
  {
  }

  lemma FilterStep<T>(p: T -> bool, s: seq<T>)
    ensures Filter(p, []) == []
    ensures s != [] ==>
              Filter(p, s) == if p(s[|s| - 1]) then Filter(p, s[..|s| - 1]) + [s[|s| - 1]] else Filter(p, s[..|s| - 1])
  {
  }

  lemma TimesOfNothing<T, U>(f: T -> U, y: U)
    ensures Times(y, Map(f, [])) == 0
  {
  }

  lemma {:induction false} FilterSplits<T(!new), U(!new)>(p: T -> bool, q: T -> bool, f: T -> U, s: seq<T>, y: U)
    requires forall x :: x in s ==> q(x) == !p(x)
    ensures Times(y, Map(f, s)) == Times(y, Map(f, Filter(p, s))) + Times(y, Map(f, Filter(q, s)))
    ensures |s| == |Filter(p, s)| + |Filter(q, s)|
  {
    hide Times, Map, Filter;
    FilterStep(p, s);
    FilterStep(q, s);
    TimesOfNothing(f, y);
    if s != [] {
      var init, last := s[..|s| - 1], s[|s| - 1];
      assert s == init + [last];
      FilterSplits(p, q, f, init, y);
      MapTimes(f, init, last, y);
      MapTimes(f, Filter(p, init), last, y);
      MapTimes(f, Filter(q, init), last, y);
    }
  }

  lemma MapAppend<T, U>(f: T -> U, s: seq<T>, x: T)
    ensures Map(f, s + [x]) == Map(f, s) + [f(x)]
  {
  }

  lemma {:induction false} MapMap<T(!new), U(!new), V(!new)>(f: U -> V, g: T -> U, h: T -> V, s: seq<T>)
    requires forall x :: x in s ==> f(g(x)) == h(x)
    ensures Map(f, Map(g, s)) == Map(h, s)
  {
    if s != [] {
      MapMap(f, g, h, s[..|s| - 1]);
      MapAppend(f, Map(g, s[..|s| - 1]), g(s[|s| - 1]));
    }
  }

  lemma {:induction false} FilterMap<T(!new), U(!new)>(p: U -> bool, q: T -> bool, f: T -> U, s: seq<T>)
    requires forall x :: x in s ==> p(f(x)) == q(x)
    ensures Filter(p, Map(f, s)) == Map(f, Filter(q, s))
  {
    if s != [] {
      var init, last := s[..|s| - 1], s[|s| - 1];
      FilterMap(p, q, f, init);
      assert Map(f, s)[..|s| - 1] == Map(f, init);
      MapAppend(f, Filter(q, init), last);
    }
  }

  lemma {:induction false} FilterSame<T(!new)>(p: T -> bool, q: T -> bool, s: seq<T>)
    requires forall x :: x in s ==> p(x) == q(x)
    ensures Filter(p, s) == Filter(q, s)
  {
    if s != [] {
      FilterSame(p, q, s[..|s| - 1]);
    }
  }

  lemma {:induction false} FilterAll<T>(p: T -> bool, s: seq<T>)
    requires forall x :: x in s ==> p(x)
    ensures Filter(p, s) == s
  {
    if s != [] {
      FilterAll(p, s[..|s| - 1]);
    }
  }
}
