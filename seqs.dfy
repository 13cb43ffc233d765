/** `Array.prototype.filter` and the facts about it that every feed's derived
    views rest on. */
module Seqs {

  /** `s.filter(p)`: the elements of `s` that satisfy `p`, in their order. */
  function Filter<T>(s: seq<T>, p: T -> bool): (r: seq<T>)
    ensures |r| <= |s|
  {
    if s == [] then [] else (if p(s[0]) then [s[0]] else []) + Filter(s[1..], p)
  }

  /** `a` can be obtained from `b` by deleting elements: an order-preserving
      subsequence. */
  ghost predicate IsSubsequence<T>(a: seq<T>, b: seq<T>)
    decreases |b|
  {
    a == [] || (b != [] && ((a[0] == b[0] && IsSubsequence(a[1..], b[1..])) || IsSubsequence(a, b[1..])))
  }

  /** A filter keeps the order of what it keeps. */
  lemma {:induction false} FilterIsSubsequence<T>(s: seq<T>, p: T -> bool)
    ensures IsSubsequence(Filter(s, p), s)
  {
    if s != [] {
      FilterIsSubsequence(s[1..], p);
      var a := Filter(s, p);
      if p(s[0]) {
        assert a == [s[0]] + Filter(s[1..], p);
        assert a[0] == s[0] && a[1..] == Filter(s[1..], p);
      } else {
        assert a == Filter(s[1..], p);
      }
    }
  }

  /** A filter keeps every satisfying element as often as it occurs and drops
      every other one. */
  lemma {:induction false} FilterMultiset<T>(s: seq<T>, p: T -> bool)
    ensures forall x :: multiset(Filter(s, p))[x] == if p(x) then multiset(s)[x] else 0
  {
    if s != [] {
      FilterMultiset(s[1..], p);
      assert s == [s[0]] + s[1..];
      assert multiset(s) == multiset{s[0]} + multiset(s[1..]);
    }
  }

  /** What a filter keeps: exactly the elements of `s` that satisfy `p`. */
  lemma FilterMembers<T>(s: seq<T>, p: T -> bool)
    ensures forall x :: x in Filter(s, p) <==> x in s && p(x)
  {
    FilterMultiset(s, p);
    forall x ensures x in Filter(s, p) <==> x in s && p(x) {
      assert x in Filter(s, p) <==> multiset(Filter(s, p))[x] > 0;
      assert x in s <==> multiset(s)[x] > 0;
    }
  }

  /** Filtering by "the key `f(x)` equals `v`" keeps as many elements as `v`
      occurs among the keys. */
  lemma {:induction false} FilterCountIsMultiplicity<T, K>(s: seq<T>, p: T -> bool, f: T -> K, v: K)
    requires forall x :: p(x) <==> f(x) == v
    ensures |Filter(s, p)| == multiset(MapSeq(s, f))[v]
  {
    if s != [] {
      FilterCountIsMultiplicity(s[1..], p, f, v);
      assert MapSeq(s, f) == [f(s[0])] + MapSeq(s[1..], f);
    }
  }

  /** `s.map(f)`. */
  function MapSeq<T, K>(s: seq<T>, f: T -> K): (r: seq<K>)
    ensures |r| == |s|
    ensures forall i :: 0 <= i < |s| ==> r[i] == f(s[i])
  {
    if s == [] then [] else [f(s[0])] + MapSeq(s[1..], f)
  }

  /** Filters by pairwise exclusive predicates share no element, so together they
      keep at most the whole sequence. */
  lemma {:induction false} DisjointFiltersLength<T>(s: seq<T>, p: T -> bool, q: T -> bool, u: T -> bool)
    requires forall x :: !(p(x) && q(x)) && !(p(x) && u(x)) && !(q(x) && u(x))
    ensures |Filter(s, p)| + |Filter(s, q)| + |Filter(s, u)| <= |s|
  {
    if s != [] {
      DisjointFiltersLength(s[1..], p, q, u);
    }
  }
}
