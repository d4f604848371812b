/** Permutations of 0..n-1, scattering a sequence along one, and the pigeonhole facts behind them. */
module Permutations {

  predicate IsPermutation(p: seq<int>, n: nat) {
    && |p| == n
    && (forall k :: 0 <= k < n ==> 0 <= p[k] < n)
    && Distinct(p)
  }

  predicate Distinct<T(==)>(s: seq<T>) {
    forall j, k :: 0 <= j < k < |s| ==> s[j] != s[k]
  }

  /** The numbers below n. */
  function Below(n: nat): (s: set<int>)
    ensures forall x :: x in s <==> 0 <= x < n
  {
    if n == 0 then {} else Below(n - 1) + {n - 1}
  }

  lemma {:induction false} BelowSize(n: nat)
    ensures |Below(n)| == n
  {
    if n > 0 {
      BelowSize(n - 1);
      var fewer := Below(n - 1);
      assert Below(n) == fewer + {n - 1};
      hide Below;
      AddElement(fewer, n - 1);
    }
  }

  lemma AddElement<T>(s: set<T>, x: T)
    requires x !in s
    ensures |s + {x}| == |s| + 1
  {}

  /** The elements of a sequence. */
  function Elements<T(==, !new)>(s: seq<T>): (r: set<T>)
    ensures forall x :: x in r <==> x in s
  {
    set x | x in s
  }

  lemma {:induction false} DistinctSize<T(!new)>(s: seq<T>)
    requires Distinct(s)
    ensures |Elements(s)| == |s|
  {
    if s != [] {
      var n := |s| - 1;
      DistinctSize(s[..n]);
      assert Elements(s) == Elements(s[..n]) + {s[n]};
      assert s[n] !in s[..n];
    } else {
      assert Elements(s) == {};
    }
  }

  lemma {:induction false} SubsetSize<T>(a: set<T>, b: set<T>)
    requires a <= b
    ensures |a| <= |b|
    ensures |a| == |b| ==> a == b
  {
    assert b == a + (b - a);
    assert |b| == |a| + |b - a|;
  }

  /** Pigeonhole: n distinct numbers below n are all of them. */
  lemma Onto(p: seq<int>, n: nat, m: int)
    requires IsPermutation(p, n) && 0 <= m < n
    ensures m in p
  {
    DistinctSize(p);
    BelowSize(n);
    SubsetSize(Elements(p), Below(n));
    assert m in Below(n);
  }

  /** `n` copies of `base` with position p[k] overwritten by j[k]. */
  function Scatter(j: seq<int>, p: seq<int>, n: nat, base: int): (i: seq<int>)
    requires |j| == |p| && forall k :: 0 <= k < |p| ==> 0 <= p[k] < n
    ensures |i| == n
    ensures forall m :: 0 <= m < n && m !in p ==> i[m] == base
    ensures Distinct(p) ==> forall k :: 0 <= k < |p| ==> i[p[k]] == j[k]
  {
    if p == [] then seq(n, _ => base)
    else
      var t := |p| - 1;
      assert forall m :: m in p[..t] ==> m in p;
      Scatter(j[..t], p[..t], n, base)[p[t] := j[t]]
  }

  /** A permutation scatters onto every position, so the result is determined. */
  lemma ScatterUnique(j: seq<int>, p: seq<int>, n: nat, base: int, i: seq<int>)
    requires IsPermutation(p, n) && |j| == n && |i| == n
    requires forall k :: 0 <= k < n ==> i[p[k]] == j[k]
    ensures Scatter(j, p, n, base) == i
  {
    var s := Scatter(j, p, n, base);
    forall m | 0 <= m < n ensures s[m] == i[m] {
      Onto(p, n, m);
      var k :| 0 <= k < n && p[k] == m;
      assert s[p[k]] == j[k] == i[p[k]];
    }
  }

  function Identity(n: nat): (p: seq<int>)
    ensures IsPermutation(p, n)
  {
    seq(n, k => k)
  }

  /** The permutation that undoes p. */
  function Inverse(p: seq<int>, n: nat): (q: seq<int>)
    requires IsPermutation(p, n)
    ensures |q| == n
    ensures forall k :: 0 <= k < n ==> q[p[k]] == k
  {
    Scatter(Identity(n), p, n, 0)
  }

  function Compose(p: seq<int>, q: seq<int>): (r: seq<int>)
    requires forall k :: 0 <= k < |q| ==> 0 <= q[k] < |p|
  {
    seq(|q|, k requires 0 <= k < |q| => p[q[k]])
  }

  lemma InverseIsPermutation(p: seq<int>, n: nat)
    requires IsPermutation(p, n)
    ensures IsPermutation(Inverse(p, n), n)
    ensures forall m :: 0 <= m < n ==> p[Inverse(p, n)[m]] == m
    ensures Compose(p, Inverse(p, n)) == Identity(n)
  {
    var q := Inverse(p, n);
    forall m | 0 <= m < n ensures 0 <= q[m] < n && p[q[m]] == m {
      Onto(p, n, m);
      var k :| 0 <= k < n && p[k] == m;
      assert q[p[k]] == k;
    }
  }

  lemma ComposeIsPermutation(p: seq<int>, q: seq<int>, n: nat)
    requires IsPermutation(p, n) && IsPermutation(q, n)
    ensures IsPermutation(Compose(p, q), n)
  {}
}
