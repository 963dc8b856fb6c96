/**
  The array pipeline every retrieval strategy is built from:
  `filter`, a stable `sort` in descending key order, and `slice(0, k)`.
 */
module Sequences {

  /** `r` can be obtained from `xs` by deleting elements, keeping the order of the rest. */
  predicate IsSubsequence<T(==)>(r: seq<T>, xs: seq<T>) {
    |r| == 0
    || (|xs| > 0 && ((r[0] == xs[0] && IsSubsequence(r[1..], xs[1..])) || IsSubsequence(r, xs[1..])))
  }

  /** `xs.filter(p)`: the elements satisfying `p`, each as often as in `xs`, in the order of `xs`. */
  function Filter<T(==,!new)>(xs: seq<T>, p: T -> bool): (r: seq<T>)
    ensures |r| <= |xs|
    ensures forall i :: 0 <= i < |r| ==> p(r[i])
    ensures forall x :: multiset(r)[x] == if p(x) then multiset(xs)[x] else 0
    ensures IsSubsequence(r, xs)
  {
    if |xs| == 0 then []
    else
      var rest := Filter(xs[1..], p);
      assert xs == [xs[0]] + xs[1..];
      if p(xs[0]) then
        assert ([xs[0]] + rest)[1..] == rest;
        [xs[0]] + rest
      else rest
  }

  /** Filtering a concatenation filters each part. */
  lemma {:induction false} FilterConcat<T(!new)>(a: seq<T>, b: seq<T>, p: T -> bool)
    ensures Filter(a + b, p) == Filter(a, p) + Filter(b, p)
  {
    if |a| > 0 {
      assert (a + b)[1..] == a[1..] + b;
      FilterConcat(a[1..], b, p);
    } else {
      assert a + b == b;
    }
  }

  /** Non-increasing order of `key`. */
  ghost predicate SortedDesc<T>(xs: seq<T>, key: T -> real) {
    forall i, j :: 0 <= i < j < |xs| ==> key(xs[i]) >= key(xs[j])
  }

  /** The elements of `xs` whose key is `v`, in the order of `xs`. */
  function WithKey<T>(xs: seq<T>, key: T -> real, v: real): seq<T> {
    if |xs| == 0 then []
    else if key(xs[0]) == v then [xs[0]] + WithKey(xs[1..], key, v)
    else WithKey(xs[1..], key, v)
  }

  /** Places `x` after the elements with a larger key and before all others. */
  function InsertDesc<T(==)>(x: T, ys: seq<T>, key: T -> real): (r: seq<T>)
    ensures multiset(r) == multiset(ys) + multiset{x}
    ensures SortedDesc(ys, key) ==> SortedDesc(r, key)
    ensures forall v :: WithKey(r, key, v) == if key(x) == v then [x] + WithKey(ys, key, v) else WithKey(ys, key, v)
  {
    if |ys| == 0 then [x]
    else if key(ys[0]) > key(x) then
      var rest := InsertDesc(x, ys[1..], key);
      var r := [ys[0]] + rest;
      assert ys == [ys[0]] + ys[1..];
      assert r[1..] == rest;
      HeadDominates(ys, x, rest, key);
      r
    else
      var r := [x] + ys;
      assert r[1..] == ys;
      r
  }

  /** The head of a sorted sequence dominates anything built from its tail and a smaller element. */
  lemma HeadDominates<T>(ys: seq<T>, x: T, rest: seq<T>, key: T -> real)
    requires |ys| > 0 && key(ys[0]) > key(x)
    requires multiset(rest) == multiset(ys[1..]) + multiset{x}
    ensures SortedDesc(ys, key) ==> forall j :: 0 <= j < |rest| ==> key(ys[0]) >= key(rest[j])
  {
    if SortedDesc(ys, key) {
      forall j | 0 <= j < |rest|
        ensures key(ys[0]) >= key(rest[j])
      {
        assert rest[j] in multiset(rest);
        if rest[j] != x {
          assert rest[j] in multiset(ys[1..]);
          var i: int :| 0 <= i < |ys[1..]| && ys[1..][i] == rest[j];
          assert ys[i + 1] == rest[j];
        }
      }
    }
  }

  /**
    A stable sort in descending key order: JavaScript's `Array.prototype.sort`
    with a comparator `(a, b) => key(b) - key(a)`.
   */
  function SortDesc<T(==)>(xs: seq<T>, key: T -> real): (r: seq<T>)
    ensures multiset(r) == multiset(xs)
    ensures |r| == |xs|
    ensures SortedDesc(r, key)
    ensures forall v :: WithKey(r, key, v) == WithKey(xs, key, v)
  {
    if |xs| == 0 then []
    else
      assert xs == [xs[0]] + xs[1..];
      var r := InsertDesc(xs[0], SortDesc(xs[1..], key), key);
      assert |r| == |multiset(r)|;
      r
  }

  /** `xs.slice(0, k)` for a natural number `k`. */
  function Take<T>(xs: seq<T>, k: nat): (r: seq<T>)
    ensures |r| == if k < |xs| then k else |xs|
    ensures r == xs[..|r|]
  {
    if k < |xs| then xs[..k] else xs
  }

  predicate IsPrefix<T(==)>(a: seq<T>, b: seq<T>) {
    |a| <= |b| && a == b[..|a|]
  }

  /** Cutting a sequence short only cuts short each of its key classes. */
  lemma {:induction false} WithKeyOfPrefix<T>(xs: seq<T>, m: nat, key: T -> real, v: real)
    requires m <= |xs|
    ensures IsPrefix(WithKey(xs[..m], key, v), WithKey(xs, key, v))
  {
    if m > 0 {
      assert xs[..m][1..] == xs[1..][..m - 1];
      WithKeyOfPrefix(xs[1..], m - 1, key, v);
    }
  }

  function Min(a: int, b: int): int {
    if a < b then a else b
  }

  /** A subsequence has no more elements than its source, all drawn from it. */
  lemma {:induction false} SubsequenceMembers<T>(r: seq<T>, xs: seq<T>)
    requires IsSubsequence(r, xs)
    ensures |r| <= |xs|
    ensures forall x :: x in r ==> x in xs
  {
    if |r| > 0 {
      if r[0] == xs[0] && IsSubsequence(r[1..], xs[1..]) {
        SubsequenceMembers(r[1..], xs[1..]);
        assert forall x :: x in r ==> x == r[0] || x in r[1..];
      } else {
        SubsequenceMembers(r, xs[1..]);
      }
    }
  }

  /** Predicates that agree on every element filter alike. */
  lemma {:induction false} FilterAgree<T(!new)>(xs: seq<T>, p: T -> bool, q: T -> bool)
    requires forall x :: x in xs ==> p(x) == q(x)
    ensures Filter(xs, p) == Filter(xs, q)
  {
    if |xs| > 0 {
      assert forall x :: x in xs[1..] ==> x in xs;
      FilterAgree(xs[1..], p, q);
    }
  }

  /**
    `xs.filter(p).sort(by key, descending).slice(0, k)`: the `k` best
    elements satisfying `p`, best first, equal keys in the order of `xs`.
   */
  function Top<T(==,!new)>(xs: seq<T>, p: T -> bool, key: T -> real, k: nat): (r: seq<T>)
    ensures forall x :: x in r ==> x in xs && p(x)
    ensures SortedDesc(r, key)
    ensures |r| == Min(k, |Filter(xs, p)|)
    ensures multiset(r) <= multiset(Filter(xs, p))
    ensures forall v :: IsPrefix(WithKey(r, key, v), WithKey(Filter(xs, p), key, v))
    ensures forall x, y :: multiset(r)[x] < multiset(Filter(xs, p))[x] && y in r ==> key(y) >= key(x)
  {
    var s := SortDesc(Filter(xs, p), key);
    var r := Take(s, k);
    PrefixMultiset(s, |r|);
    TopMembers(xs, p, s, |r|);
    TopKeyClasses(Filter(xs, p), s, |r|, key);
    TopRank(xs, p, s, |r|, key);
    r
  }

  lemma PrefixMultiset<T>(s: seq<T>, m: nat)
    requires m <= |s|
    ensures multiset(s[..m]) <= multiset(s)
  {
    assert s == s[..m] + s[m..];
  }

  lemma TopMembers<T(!new)>(xs: seq<T>, p: T -> bool, s: seq<T>, m: nat)
    requires multiset(s) == multiset(Filter(xs, p)) && m <= |s|
    ensures forall x :: x in s[..m] ==> x in xs && p(x)
  {
    PrefixMultiset(s, m);
    forall x | x in s[..m]
      ensures x in xs && p(x)
    {
      assert x in multiset(s[..m]);
    }
  }

  lemma TopKeyClasses<T>(f: seq<T>, s: seq<T>, m: nat, key: T -> real)
    requires m <= |s|
    requires forall v :: WithKey(s, key, v) == WithKey(f, key, v)
    ensures forall v :: IsPrefix(WithKey(s[..m], key, v), WithKey(f, key, v))
  {
    forall v
      ensures IsPrefix(WithKey(s[..m], key, v), WithKey(f, key, v))
    {
      WithKeyOfPrefix(s, m, key, v);
    }
  }

  /** An element kept fewer times than it passes the filter ranks no higher than anything kept. */
  lemma TopRank<T(!new)>(xs: seq<T>, p: T -> bool, s: seq<T>, m: nat, key: T -> real)
    requires multiset(s) == multiset(Filter(xs, p)) && m <= |s| && SortedDesc(s, key)
    ensures forall x, y :: multiset(s[..m])[x] < multiset(Filter(xs, p))[x] && y in s[..m] ==> key(y) >= key(x)
  {
    forall x, y | multiset(s[..m])[x] < multiset(Filter(xs, p))[x] && y in s[..m]
      ensures key(y) >= key(x)
    {
      assert s == s[..m] + s[m..];
      assert multiset(s) == multiset(s[..m]) + multiset(s[m..]);
      assert x in multiset(s[m..]);
      var j: int :| 0 <= j < |s[m..]| && s[m..][j] == x;
      var i: int :| 0 <= i < m && s[..m][i] == y;
      assert s[i] == y && s[m + j] == x;
    }
  }

  /** `xs.flatMap(f)`: the sequences `f` gives for the elements of `xs`, one after the other. */
  function FlatMap<A, B>(xs: seq<A>, f: A -> seq<B>): seq<B> {
    if |xs| == 0 then [] else f(xs[0]) + FlatMap(xs[1..], f)
  }

  lemma {:induction false} FlatMapConcat<A, B>(a: seq<A>, b: seq<A>, f: A -> seq<B>)
    ensures FlatMap(a + b, f) == FlatMap(a, f) + FlatMap(b, f)
  {
    if |a| > 0 {
      assert (a + b)[1..] == a[1..] + b;
      FlatMapConcat(a[1..], b, f);
    } else {
      assert a + b == b;
    }
  }

  /** Element `j` of the part for `xs[i]` sits after the parts of the elements before `xs[i]`. */
  lemma FlatMapAt<A, B>(xs: seq<A>, i: nat, j: nat, f: A -> seq<B>)
    requires i < |xs| && j < |f(xs[i])|
    ensures |FlatMap(xs[..i], f)| + j < |FlatMap(xs, f)|
    ensures FlatMap(xs, f)[|FlatMap(xs[..i], f)| + j] == f(xs[i])[j]
  {
    assert xs == xs[..i] + xs[i..];
    FlatMapConcat(xs[..i], xs[i..], f);
    assert FlatMap(xs[i..], f) == f(xs[i]) + FlatMap(xs[i + 1..], f) by {
      assert xs[i..][1..] == xs[i + 1..];
    }
  }

  /** Parts of equal lengths flatten to equal lengths. */
  lemma {:induction false} FlatMapLengths<A, B, C>(xs: seq<A>, f: A -> seq<B>, g: A -> seq<C>)
    requires forall x :: x in xs ==> |f(x)| == |g(x)|
    ensures |FlatMap(xs, f)| == |FlatMap(xs, g)|
  {
    if |xs| > 0 {
      assert forall x :: x in xs[1..] ==> x in xs;
      FlatMapLengths(xs[1..], f, g);
    }
  }

  /** Every element of a `flatMap` comes from the part of some element. */
  lemma {:induction false} FlatMapMember<A, B>(xs: seq<A>, f: A -> seq<B>, k: nat)
    requires k < |FlatMap(xs, f)|
    ensures exists i, j :: 0 <= i < |xs| && 0 <= j < |f(xs[i])| && FlatMap(xs, f)[k] == f(xs[i])[j]
  {
    if k < |f(xs[0])| {
      assert FlatMap(xs, f)[k] == f(xs[0])[k];
    } else {
      FlatMapMember(xs[1..], f, k - |f(xs[0])|);
      var i, j :| 0 <= i < |xs[1..]| && 0 <= j < |f(xs[1..][i])| && FlatMap(xs[1..], f)[k - |f(xs[0])|] == f(xs[1..][i])[j];
      assert FlatMap(xs, f)[k] == f(xs[i + 1])[j];
    }
  }

  /** `FlatMapAt`, behind a prefix `pre`. */
  lemma FlatMapAtAfter<A, B>(pre: seq<B>, xs: seq<A>, i: nat, j: nat, f: A -> seq<B>)
    requires i < |xs| && j < |f(xs[i])|
    ensures |pre| + |FlatMap(xs[..i], f)| + j < |pre + FlatMap(xs, f)|
    ensures (pre + FlatMap(xs, f))[|pre| + |FlatMap(xs[..i], f)| + j] == f(xs[i])[j]
  {
    FlatMapAt(xs, i, j, f);
  }

  /** `xs.map(g)`. */
  function Map<A, B>(xs: seq<A>, g: A -> B): (r: seq<B>)
    ensures |r| == |xs|
    ensures forall i :: 0 <= i < |r| ==> r[i] == g(xs[i])
  {
    seq(|xs|, i requires 0 <= i < |xs| => g(xs[i]))
  }

  /** Nothing passes a filter no element satisfies. */
  lemma {:induction false} FilterNone<T(!new)>(xs: seq<T>, p: T -> bool)
    requires forall x :: x in xs ==> !p(x)
    ensures Filter(xs, p) == []
  {
    if |xs| > 0 {
      assert forall x :: x in xs[1..] ==> x in xs;
      FilterNone(xs[1..], p);
    }
  }

  lemma FilterCons<T(!new)>(x: T, t: seq<T>, p: T -> bool)
    ensures Filter([x] + t, p) == if p(x) then [x] + Filter(t, p) else Filter(t, p)
  {
    assert ([x] + t)[1..] == t;
  }

  lemma MapCons<A, B>(x: A, t: seq<A>, g: A -> B)
    ensures Map([x] + t, g) == [g(x)] + Map(t, g)
  {
  }

  /** Filtering commutes with mapping when the two tests agree through the map. */
  lemma {:induction false} FilterMap<A(!new), B(!new)>(xs: seq<A>, g: A -> B, p: A -> bool, q: B -> bool)
    requires forall x :: x in xs ==> p(x) == q(g(x))
    ensures Map(Filter(xs, p), g) == Filter(Map(xs, g), q)
  {
    if |xs| > 0 {
      var x, t := xs[0], xs[1..];
      assert xs == [x] + t;
      assert forall y :: y in t ==> y in xs;
      FilterMap(t, g, p, q);
      FilterCons(x, t, p);
      MapCons(x, t, g);
      FilterCons(g(x), Map(t, g), q);
      if p(x) {
        MapCons(x, Filter(t, p), g);
      }
    }
  }

  /** Mapping a flattened list maps every part. */
  lemma {:induction false} MapFlatMap<A, B, C>(xs: seq<A>, f: A -> seq<B>, g: B -> C, h: A -> seq<C>)
    requires forall x :: x in xs ==> Map(f(x), g) == h(x)
    ensures Map(FlatMap(xs, f), g) == FlatMap(xs, h)
  {
    if |xs| > 0 {
      assert forall x :: x in xs[1..] ==> x in xs;
      MapFlatMap(xs[1..], f, g, h);
      assert Map(f(xs[0]) + FlatMap(xs[1..], f), g) == Map(f(xs[0]), g) + Map(FlatMap(xs[1..], f), g);
    }
  }
}
