/** Lexicographic byte order, sorted key lists and the stable sort the writer relies on. */
module StableSort {
  import opened GgufFormat

  /** Byte-wise order of two strings, as cmp.Compare orders them. */
  predicate LexLE(a: bytes, b: bytes) {
    a == [] || (b != [] && (a[0] < b[0] || (a[0] == b[0] && LexLE(a[1..], b[1..]))))
  }

  /** a and b are alike up to n, where a ends or has the smaller byte. */
  predicate DifferAt(a: bytes, b: bytes, n: nat) {
    n <= |a| && n <= |b| && a[..n] == b[..n] && (n == |a| || (n < |b| && a[n] < b[n]))
  }

  /** The order is that of the first byte that differs, a prefix coming first. */
  lemma {:induction false} LexMeans(a: bytes, b: bytes)
    ensures LexLE(a, b) <==> exists n: nat :: DifferAt(a, b, n)
  {
    if a == [] {
      assert DifferAt(a, b, 0);
    } else if b != [] && a[0] == b[0] {
      LexMeans(a[1..], b[1..]);
      if n: nat :| DifferAt(a[1..], b[1..], n) {
        assert a[..n + 1] == [a[0]] + a[1..][..n] && b[..n + 1] == [b[0]] + b[1..][..n];
        assert DifferAt(a, b, n + 1);
      }
      if n: nat :| DifferAt(a, b, n) {
        assert a[1..][..n - 1] == a[..n][1..] && b[1..][..n - 1] == b[..n][1..];
        assert DifferAt(a[1..], b[1..], n - 1);
      }
    } else {
      if b != [] && a[0] < b[0] { assert DifferAt(a, b, 0); }
      if n: nat :| DifferAt(a, b, n) {
        if n > 0 { assert a[..n][0] == b[..n][0]; }
      }
    }
  }

  lemma {:induction false} LexReflexive(a: bytes)
    ensures LexLE(a, a)
  {
    if a != [] { LexReflexive(a[1..]); }
  }

  lemma {:induction false} LexTotal(a: bytes, b: bytes)
    ensures LexLE(a, b) || LexLE(b, a)
  {
    if a != [] && b != [] { LexTotal(a[1..], b[1..]); }
  }

  lemma {:induction false} LexAntisymmetric(a: bytes, b: bytes)
    requires LexLE(a, b) && LexLE(b, a)
    ensures a == b
  {
    if a != [] {
      LexAntisymmetric(a[1..], b[1..]);
      assert a == [a[0]] + a[1..] && b == [b[0]] + b[1..];
    }
  }

  lemma {:induction false} LexTransitive(a: bytes, b: bytes, c: bytes)
    requires LexLE(a, b) && LexLE(b, c)
    ensures LexLE(a, c)
  {
    if a != [] && a[0] == b[0] == c[0] { LexTransitive(a[1..], b[1..], c[1..]); }
  }

  /** Keys in strictly increasing order. */
  predicate Increasing(s: seq<bytes>) {
    forall i, j :: 0 <= i < j < |s| ==> LexLE(s[i], s[j]) && s[i] != s[j]
  }

  /** The keys of a map, sorted: slices.Sorted(maps.Keys(kv)). */
  method SortedKeys(keys: set<bytes>) returns (s: seq<bytes>)
    ensures Increasing(s)
    ensures |s| == |keys| && forall k :: k in s <==> k in keys
  {
    s := [];
    var rest := keys;
    while rest != {}
      invariant rest <= keys && Increasing(s) && |s| + |rest| == |keys|
      invariant forall k :: k in s <==> k in keys && k !in rest
      decreases |rest|
    {
      var k :| k in rest;
      rest := rest - {k};
      var i := 0;
      while i < |s| && LexLE(s[i], k)
        invariant 0 <= i <= |s|
        invariant forall j :: 0 <= j < i ==> LexLE(s[j], k)
      {
        i := i + 1;
      }
      KeyInserted(s, i, k);
      s := s[..i] + [k] + s[i..];
    }
  }

  lemma KeyInserted(s: seq<bytes>, i: nat, k: bytes)
    requires Increasing(s) && i <= |s| && k !in s
    requires forall j :: 0 <= j < i ==> LexLE(s[j], k)
    requires i < |s| ==> !LexLE(s[i], k)
    ensures Increasing(s[..i] + [k] + s[i..])
  {
    var t := s[..i] + [k] + s[i..];
    forall j | i <= j < |s| ensures LexLE(k, s[j]) {
      LexTotal(s[i], k);
      LexReflexive(s[i]);
      if j > i { LexTransitive(k, s[i], s[j]); }
    }
    forall a, b | 0 <= a < b < |t| ensures LexLE(t[a], t[b]) && t[a] != t[b] {
      var x := if a < i then a else a - 1;
      var y := if b < i then b else b - 1;
      if a != i && b != i { assert t[a] == s[x] && t[b] == s[y]; }
      if a == i { assert t[b] == s[b - 1]; }
      if b == i { assert t[a] == s[a]; }
    }
  }

  /** There is only one increasing list of a set of keys. */
  lemma {:induction false} IncreasingUnique(s: seq<bytes>, t: seq<bytes>)
    requires Increasing(s) && Increasing(t) && forall k :: k in s <==> k in t
    ensures s == t
  {
    SameEmptiness(s, t);
    SameEmptiness(t, s);
    if s == [] {
    } else {
      FirstIsLeast(s, t[0]);
      FirstIsLeast(t, s[0]);
      LexAntisymmetric(s[0], t[0]);
      forall k ensures k in s[1..] <==> k in t[1..] {
        RestOf(s, k);
        RestOf(t, k);
      }
      IncreasingUnique(s[1..], t[1..]);
      assert s == [s[0]] + s[1..] && t == [t[0]] + t[1..];
    }
  }

  lemma SameEmptiness(s: seq<bytes>, t: seq<bytes>)
    requires forall k :: k in s <==> k in t
    ensures s != [] ==> t != []
  {
    if s != [] { assert s[0] in t; }
  }

  lemma FirstIsLeast(s: seq<bytes>, k: bytes)
    requires Increasing(s) && s != [] && (k in s || k == s[0])
    ensures LexLE(s[0], k)
  {
    LexReflexive(s[0]);
  }

  lemma RestOf(s: seq<bytes>, k: bytes)
    requires Increasing(s) && s != []
    ensures k in s[1..] <==> k in s && k != s[0]
  {
    if k in s && k != s[0] {
      var i :| 0 <= i < |s| && s[i] == k;
      assert s[1..][i - 1] == k;
    }
  }

  // ----- stable sort by (rank, name)

  datatype Item<T> = Item(rank: int, name: bytes, value: T)

  /** The comparison the writer sorts tensors by. */
  predicate NotAfter<T>(a: Item<T>, b: Item<T>) {
    a.rank < b.rank || (a.rank == b.rank && LexLE(a.name, b.name))
  }

  predicate Sorted<T>(s: seq<Item<T>>) {
    forall i, j :: 0 <= i < j < |s| ==> NotAfter(s[i], s[j])
  }

  /** Insert x after everything not after it. */
  function Insert<T>(s: seq<Item<T>>, x: Item<T>): (r: seq<Item<T>>)
    ensures |r| == |s| + 1
  {
    if s == [] || NotAfter(s[|s|-1], x) then s + [x]
    else Insert(s[..|s|-1], x) + [s[|s|-1]]
  }

  /** slices.SortStableFunc, as an insertion sort. */
  function Sort<T>(s: seq<Item<T>>): (r: seq<Item<T>>)
    ensures |r| == |s|
  {
    if s == [] then [] else Insert(Sort(s[..|s|-1]), s[|s|-1])
  }

  lemma NotAfterTotal<T>(a: Item<T>, b: Item<T>)
    ensures NotAfter(a, b) || NotAfter(b, a)
  {
    LexTotal(a.name, b.name);
  }

  lemma NotAfterTransitive<T>(a: Item<T>, b: Item<T>, c: Item<T>)
    requires NotAfter(a, b) && NotAfter(b, c)
    ensures NotAfter(a, c)
  {
    if a.rank == b.rank == c.rank { LexTransitive(a.name, b.name, c.name); }
  }

  lemma {:induction false} InsertedFrom<T>(s: seq<Item<T>>, x: Item<T>, i: nat)
    requires i <= |s|
    ensures Insert(s, x)[i] == x || exists k :: 0 <= k < |s| && s[k] == Insert(s, x)[i]
  {
    if s != [] && !NotAfter(s[|s|-1], x) && i < |s| {
      var init := s[..|s|-1];
      InsertedFrom(init, x, i);
      if Insert(init, x)[i] != x {
        var k :| 0 <= k < |init| && init[k] == Insert(init, x)[i];
        assert s[k] == Insert(s, x)[i];
      }
    }
  }

  lemma {:induction false} InsertSorted<T>(s: seq<Item<T>>, x: Item<T>)
    requires Sorted(s)
    ensures Sorted(Insert(s, x))
  {
    if s == [] {
    } else if NotAfter(s[|s|-1], x) {
      forall i | 0 <= i < |s| ensures NotAfter(s[i], x) {
        if i < |s| - 1 { NotAfterTransitive(s[i], s[|s|-1], x); }
      }
    } else {
      var last, init := s[|s|-1], s[..|s|-1];
      InsertSorted(init, x);
      NotAfterTotal(last, x);
      forall i | 0 <= i < |s| ensures NotAfter(Insert(init, x)[i], last) {
        InsertedFrom(init, x, i);
      }
    }
  }

  lemma {:induction false} InsertMultiset<T>(s: seq<Item<T>>, x: Item<T>)
    ensures multiset(Insert(s, x)) == multiset(s) + multiset{x}
  {
    if s != [] && !NotAfter(s[|s|-1], x) {
      InsertMultiset(s[..|s|-1], x);
      assert s == s[..|s|-1] + [s[|s|-1]];
    }
  }

  /** Sorted, and a rearrangement. */
  lemma {:induction false} SortSorts<T>(s: seq<Item<T>>)
    ensures Sorted(Sort(s))
    ensures multiset(Sort(s)) == multiset(s)
  {
    if s != [] {
      var init := s[..|s|-1];
      SortSorts(init);
      InsertSorted(Sort(init), s[|s|-1]);
      InsertMultiset(Sort(init), s[|s|-1]);
      assert s == init + [s[|s|-1]];
    }
  }

  /** The items that tie with key, in order. */
  function Ties<T>(s: seq<Item<T>>, rank: int, name: bytes): seq<Item<T>> {
    if s == [] then []
    else
      var rest := Ties(s[..|s|-1], rank, name);
      if s[|s|-1].rank == rank && s[|s|-1].name == name then rest + [s[|s|-1]] else rest
  }

  lemma {:induction false} InsertStable<T>(s: seq<Item<T>>, x: Item<T>, rank: int, name: bytes)
    ensures Ties(Insert(s, x), rank, name) == Ties(s + [x], rank, name)
  {
    assert (s + [x])[..|s|] == s;
    if s != [] && !NotAfter(s[|s|-1], x) {
      var init, last := s[..|s|-1], s[|s|-1];
      InsertStable(init, x, rank, name);
      var r := Insert(init, x) + [last];
      assert r[..|r|-1] == Insert(init, x) && r[|r|-1] == last;
      assert (init + [x])[..|init|] == init;
      LexReflexive(x.name);
    }
  }

  /** Items that tie keep their order. */
  lemma {:induction false} SortStable<T>(s: seq<Item<T>>, rank: int, name: bytes)
    ensures Ties(Sort(s), rank, name) == Ties(s, rank, name)
  {
    if s != [] {
      var init := s[..|s|-1];
      SortStable(init, rank, name);
      InsertStable(Sort(init), s[|s|-1], rank, name);
      var r := Sort(init) + [s[|s|-1]];
      assert r[..|r|-1] == Sort(init);
    }
  }
}
