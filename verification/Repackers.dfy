/** The hand-written repackers of the migrators, each proved equal to a generic layout operation. */
module Repackers {
  import opened RowMajor
  import opened Permutations
  import opened TensorLayout
  import opened LayoutOps
  import opened PermuteOp
  import opened LayoutLaws
  import opened SmallRanks

  datatype Outcome<+V> = Done(value: V) | Failed(reason: string)

  // ----- compatmigrate/mistral_pixtral.go: vision q/k rows from [head, pair, inner] to [head, inner, pair]

  const PairSwap: seq<int> := [0, 2, 1, 3]

  lemma PairSwapIsPermutation()
    ensures IsPermutation(PairSwap, 4)
    ensures PairSwap == [0, 2, 1, 3]
  {}

  /** The source row of output row q. */
  function SourceRow(q: int, heads: nat, inner: nat): (s: int)
    requires 0 <= q < Size([heads, inner, 2])
    ensures 0 <= s < Size([heads, inner, 2])
  {
    var j := Unflat(q, [heads, inner, 2]);
    PairInBounds(j, heads, inner);
    Flat([j[0], j[2], j[1]], [heads, 2, inner])
  }

  lemma PairInBounds(j: seq<int>, heads: nat, inner: nat)
    requires InBounds(j, [heads, inner, 2])
    ensures |j| == 3 && InBounds([j[0], j[2], j[1]], [heads, 2, inner])
    ensures Size([heads, 2, inner]) == Size([heads, inner, 2])
    ensures 0 <= Flat([j[0], j[2], j[1]], [heads, 2, inner]) < Size([heads, 2, inner])
  {
    assert 0 <= j[0] < [heads, inner, 2][0] && 0 <= j[1] < [heads, inner, 2][1] && 0 <= j[2] < [heads, inner, 2][2];
    Size3(heads, 2, inner);
    Size3(heads, inner, 2);
    FlatInRange([j[0], j[2], j[1]], [heads, 2, inner]);
  }

  ghost predicate RowsSwapped<T>(out: seq<T>, data: seq<T>, heads: nat, inner: nat, rows: nat, n: int)
    requires |data| == Size([heads, inner, 2]) * rows && n <= Size([heads, inner, 2])
  {
    && |out| == n * rows
    && forall q :: 0 <= q < n ==> SwappedRow(out, data, heads, inner, rows, q)
  }

  ghost predicate SwappedRow<T>(out: seq<T>, data: seq<T>, heads: nat, inner: nat, rows: nat, q: int) {
    && 0 <= q < Size([heads, inner, 2])
    && (q + 1) * rows <= |out| && (SourceRow(q, heads, inner) + 1) * rows <= |data|
    && Row(out, q, rows) == Row(data, SourceRow(q, heads, inner), rows)
  }

  lemma NextRow<T>(out: seq<T>, data: seq<T>, heads: nat, inner: nat, rows: nat, head: nat, i: nat, pair: nat)
    requires |data| == Size([heads, inner, 2]) * rows
    requires head < heads && i < inner && pair < 2
    requires (head * inner + i) * 2 + pair <= Size([heads, inner, 2])
    requires RowsSwapped(out, data, heads, inner, rows, (head * inner + i) * 2 + pair)
    ensures var n := (head * inner + i) * 2 + pair;
      var start := (((head * 2 + pair) * inner) + i) * rows;
      && n < Size([heads, inner, 2])
      && 0 <= start <= start + rows <= |data|
      && RowsSwapped(out + data[start..start + rows], data, heads, inner, rows, n + 1)
  {
    var n := (head * inner + i) * 2 + pair;
    var s := (head * 2 + pair) * inner + i;
    SourceRowAt(head, i, pair, heads, inner);
    RowInRange(s, Size([heads, inner, 2]), rows);
    MulDistributes(s, 1, rows);
    var x := Row(data, s, rows);
    RowAppend(out, x, n, rows);
    forall q | 0 <= q < n + 1 ensures SwappedRow(out + x, data, heads, inner, rows, q) {
      if q < n {
        assert SwappedRow(out, data, heads, inner, rows, q);
        RowKept(out, x, q, rows);
      }
    }
  }

  lemma SwappedIsPermute<T>(out: seq<T>, data: seq<T>, heads: nat, inner: nat, rows: nat)
    requires |data| == Size([heads, inner, 2]) * rows
    requires RowsSwapped(out, data, heads, inner, rows, Size([heads, inner, 2]))
    ensures Tensor(data, [heads, 2, inner, rows]).Valid()
    ensures IsPermutation(PairSwap, 4)
    ensures out == Permute(Tensor(data, [heads, 2, inner, rows]), PairSwap).data
  {
    PairSwapIsPermutation();
    var dims: seq<int> := [heads, inner, 2, rows];
    var src := Tensor(data, [heads, 2, inner, rows]);
    PairSizes(heads, inner, rows);
    assert PermuteDims(src.dims, PairSwap) == dims;
    forall j | InBounds(j, dims)
      ensures Get(Tensor(out, dims), j) == Get(Permute(src, PairSwap), j)
    {
      assert 0 <= j[0] < dims[0] && 0 <= j[1] < dims[1] && 0 <= j[2] < dims[2] && 0 <= j[3] < dims[3];
      PermuteMeaning(src, PairSwap, [j[0], j[2], j[1], j[3]], j);
      SwappedAt(out, data, heads, inner, rows, j[0], j[1], j[2], j[3]);
      assert j == [j[0], j[1], j[2], j[3]];
    }
    SameTensor(Tensor(out, dims), Permute(src, PairSwap));
  }

  lemma PairSizes(heads: nat, inner: nat, rows: nat)
    ensures Size([heads, 2, inner, rows]) == Size([heads, inner, 2]) * rows
    ensures Size([heads, inner, 2, rows]) == Size([heads, inner, 2]) * rows
  {
    Size4(heads, 2, inner, rows);
    Size4(heads, inner, 2, rows);
    Size3(heads, inner, 2);
    MulAssociative(heads, inner * 2, rows);
    assert 2 * (inner * rows) == (inner * 2) * rows == inner * (2 * rows);
  }

  lemma SwappedAt<T>(out: seq<T>, data: seq<T>, heads: nat, inner: nat, rows: nat, h: int, i: int, p: int, r: int)
    requires |data| == Size([heads, inner, 2]) * rows
    requires RowsSwapped(out, data, heads, inner, rows, Size([heads, inner, 2]))
    requires 0 <= h < heads && 0 <= i < inner && 0 <= p < 2 && 0 <= r < rows
    requires Tensor(out, [heads, inner, 2, rows]).Valid() && Tensor(data, [heads, 2, inner, rows]).Valid()
    ensures Get(Tensor(out, [heads, inner, 2, rows]), [h, i, p, r])
      == Get(Tensor(data, [heads, 2, inner, rows]), [h, p, i, r])
  {
    var q := (h * inner + i) * 2 + p;
    var s := (h * 2 + p) * inner + i;
    SourceRowAt(h, i, p, heads, inner);
    assert SwappedRow(out, data, heads, inner, rows, q);
    RowRead(out, q, rows, r);
    RowRead(data, s, rows, r);
    assert Flat([h, i, p, r], [heads, inner, 2, rows]) == q * rows + r by { Flat4(h, i, p, r, heads, inner, 2, rows); }
    assert Flat([h, p, i, r], [heads, 2, inner, rows]) == s * rows + r by { Flat4(h, p, i, r, heads, 2, inner, rows); }
    GetAt(Tensor(out, [heads, inner, 2, rows]), [h, i, p, r], q * rows + r);
    GetAt(Tensor(data, [heads, 2, inner, rows]), [h, p, i, r], s * rows + r);
  }

  lemma SourceRowAt(h: int, i: int, p: int, heads: nat, inner: nat)
    requires 0 <= h < heads && 0 <= i < inner && 0 <= p < 2
    ensures 0 <= (h * inner + i) * 2 + p < Size([heads, inner, 2])
    ensures SourceRow((h * inner + i) * 2 + p, heads, inner) == (h * 2 + p) * inner + i
  {
    var j := [h, i, p];
    Flat3(h, i, p, heads, inner, 2);
    Flat3(h, p, i, heads, 2, inner);
    assert InBounds(j, [heads, inner, 2]);
    UnflatFlat(j, [heads, inner, 2]);
  }

  lemma InnerWidth(cols: nat, heads: nat)
    requires heads > 0 && cols % (heads * 2) == 0
    ensures cols / heads / 2 >= 0
    ensures Size([heads, cols / heads / 2, 2]) == cols
  {
    var k := cols / (heads * 2);
    assert cols == k * (heads * 2);
    assert cols == (k * 2) * heads + 0;
    DivideSum(k * 2, heads, 0);
    Size3(heads, k, 2);
  }

  method MistralPixtralVisionQKRepack<T>(data: seq<T>, shape: seq<nat>, heads: nat) returns (r: Outcome<seq<T>>)
    ensures r.Done? <==>
      heads > 0 && |shape| == 2 && shape[0] % (heads * 2) == 0 && |data| == shape[0] * shape[1]
    ensures r.Done? ==>
      var t := Tensor(data, [heads, 2, shape[0] / heads / 2, shape[1]]);
      t.Valid() && IsPermutation(PairSwap, 4) && r.value == Permute(t, PairSwap).data
  {
    if heads == 0 {
      return Failed("zero attention heads");
    }
    if |shape| != 2 {
      return Failed("requires a 2D tensor");
    }
    if shape[0] % (heads * 2) != 0 {
      return Failed("shape not divisible by heads*2");
    }
    var cols, rows := shape[0], shape[1];
    if |data| != cols * rows {
      return Failed("wrong number of values");
    }
    var inner := cols / heads / 2;
    InnerWidth(cols, heads);
    var out: seq<T> := [];
    for head := 0 to heads
      invariant head * inner * 2 <= Size([heads, inner, 2])
      invariant RowsSwapped(out, data, heads, inner, rows, head * inner * 2)
    {
      for i := 0 to inner
        invariant (head * inner + i) * 2 <= Size([heads, inner, 2])
        invariant RowsSwapped(out, data, heads, inner, rows, (head * inner + i) * 2)
      {
        for pair := 0 to 2
          invariant (head * inner + i) * 2 + pair <= Size([heads, inner, 2])
          invariant RowsSwapped(out, data, heads, inner, rows, (head * inner + i) * 2 + pair)
        {
          var start := (((head * 2 + pair) * inner) + i) * rows;
          NextRow(out, data, heads, inner, rows, head, i, pair);
          out := out + data[start..start + rows];
        }
      }
      MulDistributes(head, 1, inner);
    }
    Size3(heads, inner, 2);
    MulAssociative(heads, inner, 2);
    SwappedIsPermute(out, data, heads, inner, rows);
    return Done(out);
  }
}
