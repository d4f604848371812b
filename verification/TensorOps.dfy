/** compatmigrate/tensor_ops.go: tensors built by splitting, concatenating and stacking sources.
    Shapes list the fastest dimension first; the float path reads them row-major as they stand. */
module TensorOps {
  import opened RowMajor
  import opened TensorLayout
  import opened LayoutOps
  import opened LayoutLaws
  import opened SourceTensors

  datatype OpResult<+V> = Built(value: V) | Refused(reason: string)

  /** Tensors the runtime needs in F32 are promoted, by the target's name or the source's. */
  function OutputKind(mustBeF32: bytes -> bool, target: bytes, source: Source): uint32 {
    if mustBeF32(target) || mustBeF32(source.name) then 0 else source.kind
  }

  // ----- split

  /** Output i of a split into n: its own equal window along dim. */
  function SplitOut(s: Source, dim: int, name: bytes, n: nat, i: nat, mustBeF32: bytes -> bool): Out
    requires 0 <= dim < |s.shape| && 0 < n
  {
    var part := s.shape[dim] / n;
    var kind := OutputKind(mustBeF32, name, s);
    Out(name, kind, s.shape[dim := part], Converted(s, SliceDim(dim, i * part, (i + 1) * part), kind))
  }

  method SplitSourceTensorDim(s: Source, dim: int, names: seq<bytes>, mustBeF32: bytes -> bool)
    returns (r: OpResult<seq<Out>>)
    ensures r.Built? <==> 0 <= dim < |s.shape| && names != [] && s.shape[dim] % |names| == 0
    ensures r.Built? ==>
      |r.value| == |names| && forall i :: 0 <= i < |names| ==>
        r.value[i] == SplitOut(s, dim, names[i], |names|, i, mustBeF32)
  {
    var shape := s.shape;
    if dim < 0 || dim >= |shape| {
      return Refused("split dimension out of range");
    }
    if |names| == 0 {
      return Refused("no target names");
    }
    if shape[dim] % |names| != 0 {
      return Refused("dimension size is not divisible");
    }
    var out: seq<Out> := [];
    var offset := 0;
    ghost var size := shape[dim] / |names|;
    for i := 0 to |names|
      invariant |out| == i && offset == i * size
      invariant forall k :: 0 <= k < i ==> out[k] == SplitOut(s, dim, names[k], |names|, k, mustBeF32)
    {
      var part := shape[dim] / |names|;
      var start := offset;
      var end := offset + part;
      offset := end;
      MulDistributes(i, 1, size);
      var outType := OutputKind(mustBeF32, names[i], s);
      out := out + [Out(names[i], outType, shape[dim := part], Converted(s, SliceDim(dim, start, end), outType))];
    }
    return Built(out);
  }

  function Equal(n: nat, part: int): (w: seq<int>)
    ensures |w| == n
  {
    seq(n, _ => part)
  }

  lemma {:induction false} SumEqual(n: nat, part: int)
    ensures Sum(Equal(n, part)) == n * part
  {
    if n > 0 {
      assert Equal(n, part)[..n-1] == Equal(n - 1, part);
      SumEqual(n - 1, part);
    }
  }

  /** What output i of a split writes, before it is encoded. */
  ghost predicate IsWindow(o: Out, s: Source, part: Tensor<Float>)
    requires Decodes(s) && o.writer.Converted?
  {
    && o.writer.source == s && Takes(o.writer.repacker, Values(s), s.shape)
    && Tensor(Repacked(o.writer.repacker, Values(s), s.shape), o.shape) == part
  }

  lemma SplitWindow(s: Source, dim: nat, name: bytes, n: nat, i: nat, mustBeF32: bytes -> bool)
    requires Intact(s) && Decodes(s) && dim < |s.shape| && i < n && s.shape[dim] % n == 0
    ensures var t, w := TensorOf(s), Equal(n, s.shape[dim] / n);
      Covers(t, dim, w) && IsWindow(SplitOut(s, dim, name, n, i, mustBeF32), s, Pieces(t, dim, w)[i])
  {
    hide Decodes, Values, Intact, Sum, Size;
    ValuesFill(s);
    var t, part := TensorOf(s), s.shape[dim] / n;
    var w := Equal(n, part);
    assert n * part == s.shape[dim];
    SumEqual(n, part);
    assert w[..i] == Equal(i, part);
    SumEqual(i, part);
    MulDistributes(i, 1, part);
    MulMonotone(i + 1, n, part);
    MulNonNegative(i, part);
    PieceIsSlice(t, dim, w, i, i * part);
  }

  /** The windows of a split, joined again, are the source. */
  lemma SplitRebuilds(s: Source, dim: nat, names: seq<bytes>, mustBeF32: bytes -> bool, parts: seq<Tensor<Float>>)
    requires Intact(s) && Decodes(s) && dim < |s.shape| && names != [] && s.shape[dim] % |names| == 0
      && |parts| == |names|
    requires forall i :: 0 <= i < |names| ==> IsWindow(SplitOut(s, dim, names[i], |names|, i, mustBeF32), s, parts[i])
    ensures Compatible(parts, dim) && Concat(parts, dim) == TensorOf(s)
  {
    hide Decodes, Values, Intact;
    ValuesFill(s);
    var t, w := TensorOf(s), Equal(|names|, s.shape[dim] / |names|);
    forall i | 0 <= i < |names| ensures Covers(t, dim, w) && parts[i] == Pieces(t, dim, w)[i] {
      SplitWindow(s, dim, names[i], |names|, i, mustBeF32);
    }
    assert Covers(t, dim, w) by { SplitWindow(s, dim, names[0], |names|, 0, mustBeF32); }
    assert parts == Pieces(t, dim, w);
    ConcatOfSlices(t, dim, w);
  }

  // ----- concatenate

  /** Same type after promotion, same rank, same dims away from dim. */
  predicate Joinable(sources: seq<Source>, dim: int, name: bytes, mustBeF32: bytes -> bool) {
    && |sources| > 0
    && 0 <= dim < |sources[0].shape|
    && forall i :: 0 <= i < |sources| ==>
      && OutputKind(mustBeF32, name, sources[i]) == OutputKind(mustBeF32, name, sources[0])
      && SameAway(sources[i].shape, sources[0].shape, dim)
  }

  predicate SameAway(a: seq<int>, b: seq<int>, dim: int) {
    |a| == |b| && forall k :: 0 <= k < |b| && k != dim ==> a[k] == b[k]
  }

  function Extents(sources: seq<Source>, dim: nat): (w: seq<int>)
    requires forall i :: 0 <= i < |sources| ==> dim < |sources[i].shape|
    ensures |w| == |sources| && forall i :: 0 <= i < |w| ==> w[i] == sources[i].shape[dim]
  {
    seq(|sources|, i requires 0 <= i < |sources| => sources[i].shape[dim])
  }

  /** The first source's shape with the extents along dim added up. */
  function JoinedShape(sources: seq<Source>, dim: nat): (shape: seq<nat>)
    requires |sources| > 0 && forall i :: 0 <= i < |sources| ==> dim < |sources[i].shape|
    ensures |shape| == |sources[0].shape| && shape[dim] == Sum(Extents(sources, dim))
    ensures forall k :: 0 <= k < |shape| && k != dim ==> shape[k] == sources[0].shape[k]
  {
    SumNonNegative(Extents(sources, dim));
    sources[0].shape[dim := Sum(Extents(sources, dim))]
  }

  /** The shared checks of the concatenations, with the extents along dim added up. */
  method JoinShape(sources: seq<Source>, dim: nat, name: bytes, mustBeF32: bytes -> bool)
    returns (r: OpResult<seq<nat>>)
    requires |sources| > 0 && dim < |sources[0].shape|
    ensures r.Built? <==> Joinable(sources, dim, name, mustBeF32)
    ensures r.Built? ==> r.value == JoinedShape(sources, dim)
  {
    hide Sum, SameAway, OutputKind, Extents, JoinedShape;
    var kind := OutputKind(mustBeF32, name, sources[0]);
    var shape: seq<nat> := sources[0].shape[dim := 0];
    NoExtent(sources, dim);
    for n := 0 to |sources|
      invariant forall i :: 0 <= i < n ==>
        OutputKind(mustBeF32, name, sources[i]) == kind && SameAway(sources[i].shape, sources[0].shape, dim)
      invariant forall i :: 0 <= i < n ==> dim < |sources[i].shape|
      invariant |shape| == |sources[0].shape| && shape[dim] == Sum(Extents(sources[..n], dim))
      invariant forall k :: 0 <= k < |shape| && k != dim ==> shape[k] == sources[0].shape[k]
    {
      var dims := sources[n].shape;
      if OutputKind(mustBeF32, name, sources[n]) != kind {
        return Refused("mixed tensor types");
      }
      var ok := SameShapeAway(dims, shape, dim, sources[0].shape);
      if !ok {
        return Refused("incompatible shape");
      }
      OneMoreExtent(sources, dim, n);
      shape := shape[dim := shape[dim] + dims[dim]];
    }
    assert sources[..|sources|] == sources;
    JoinedIs(sources, dim, shape);
    return Built(shape);
  }

  /** The rank and shape checks of one source. */
  method SameShapeAway(dims: seq<nat>, shape: seq<nat>, dim: nat, ghost like: seq<nat>) returns (ok: bool)
    requires |shape| == |like| && dim < |shape| && forall k :: 0 <= k < |shape| && k != dim ==> shape[k] == like[k]
    ensures ok <==> SameAway(dims, like, dim)
    ensures ok ==> dim < |dims|
  {
    if |dims| != |shape| {
      return false;
    }
    for i := 0 to |shape|
      invariant forall k :: 0 <= k < i && k != dim ==> dims[k] == shape[k]
    {
      if i == dim {
        continue;
      }
      if dims[i] != shape[i] {
        return false;
      }
    }
    return true;
  }

  lemma NoExtent(sources: seq<Source>, dim: nat)
    ensures Sum(Extents(sources[..0], dim)) == 0
  {}

  lemma OneMoreExtent(sources: seq<Source>, dim: nat, n: nat)
    requires n < |sources| && forall i :: 0 <= i <= n ==> dim < |sources[i].shape|
    ensures Sum(Extents(sources[..n + 1], dim)) == Sum(Extents(sources[..n], dim)) + sources[n].shape[dim]
  {
    assert Extents(sources[..n + 1], dim)[..n] == Extents(sources[..n], dim);
  }

  lemma JoinedIs(sources: seq<Source>, dim: nat, shape: seq<nat>)
    requires |sources| > 0 && forall i :: 0 <= i < |sources| ==> dim < |sources[i].shape|
    requires |shape| == |sources[0].shape| && shape[dim] == Sum(Extents(sources, dim))
    requires forall k :: 0 <= k < |shape| && k != dim ==> shape[k] == sources[0].shape[k]
    ensures shape == JoinedShape(sources, dim)
  {
    hide Sum, Extents;
  }

  method ConcatSourceTensorsDim(dim: int, name: bytes, sources: seq<Source>, mustBeF32: bytes -> bool)
    returns (r: OpResult<Out>)
    ensures r.Built? <==> Joinable(sources, dim, name, mustBeF32)
    ensures r.Built? ==>
      var kind := OutputKind(mustBeF32, name, sources[0]);
      r.value == Out(name, kind, JoinedShape(sources, dim), Joined(dim, kind, sources))
  {
    if |sources| == 0 {
      return Refused("no source tensors");
    }
    if dim < 0 || dim >= |sources[0].shape| {
      return Refused("dimension out of range");
    }
    var shape := JoinShape(sources, dim, name, mustBeF32);
    if shape.Refused? {
      return Refused(shape.reason);
    }
    var kind := OutputKind(mustBeF32, name, sources[0]);
    return Built(Out(name, kind, shape.value, Joined(dim, kind, sources)));
  }

  predicate AnyName(name: bytes) { true }

  /** Joined whatever the sources' types, in a type of the caller's choice: only shapes are compared. */
  method ConcatSourceTensorsDimKind(dim: int, name: bytes, kind: uint32, sources: seq<Source>)
    returns (r: OpResult<Out>)
    ensures r.Built? <==> Joinable(sources, dim, name, AnyName)
    ensures r.Built? ==> r.value == Out(name, kind, JoinedShape(sources, dim), Joined(dim, kind, sources))
  {
    if |sources| == 0 {
      return Refused("no source tensors");
    }
    if dim < 0 || dim >= |sources[0].shape| {
      return Refused("dimension out of range");
    }
    var shape := JoinShape(sources, dim, name, AnyName);
    if shape.Refused? {
      return Refused(shape.reason);
    }
    return Built(Out(name, kind, shape.value, Joined(dim, kind, sources)));
  }

  /** Sources that are end to end in memory: the dimension joined must be the slowest. The declared type may be a
      promoted one; the bytes are copied as they are stored. */
  method ConcatSourceTensorsSlowDim(dim: int, name: bytes, sources: seq<Source>, mustBeF32: bytes -> bool)
    returns (r: OpResult<Out>)
    ensures r.Built? <==> Joinable(sources, dim, name, mustBeF32) && dim == |sources[0].shape| - 1
    ensures r.Built? ==>
      r.value == Out(name, OutputKind(mustBeF32, name, sources[0]), JoinedShape(sources, dim), BackToBack(sources))
  {
    if |sources| == 0 {
      return Refused("no source tensors");
    }
    if dim < 0 || dim >= |sources[0].shape| {
      return Refused("dimension out of range");
    }
    if dim != |sources[0].shape| - 1 {
      return Refused("not the slowest dimension");
    }
    var shape := JoinShape(sources, dim, name, mustBeF32);
    if shape.Refused? {
      return Refused(shape.reason);
    }
    return Built(Out(name, OutputKind(mustBeF32, name, sources[0]), shape.value, BackToBack(sources)));
  }

  // ----- stack

  predicate Stackable(sources: seq<Source>, name: bytes, mustBeF32: bytes -> bool) {
    && |sources| > 0
    && forall i :: 0 <= i < |sources| ==>
      OutputKind(mustBeF32, name, sources[i]) == OutputKind(mustBeF32, name, sources[0])
        && sources[i].shape == sources[0].shape
  }

  /** A singleton third dimension becomes the stack dimension; otherwise one is appended. */
  function StackShape(base: seq<nat>, n: nat): seq<nat> {
    if |base| >= 3 && base[2] == 1 then base[2 := n] else base + [n]
  }

  /** No source is promoted. */
  predicate AllOfKind(sources: seq<Source>, kind: uint32) {
    forall i :: 0 <= i < |sources| ==> sources[i].kind == kind
  }

  /** Sources of the declared type are copied as they are stored; if any is promoted, all are encoded. */
  method StackSourceTensors(name: bytes, sources: seq<Source>, mustBeF32: bytes -> bool) returns (r: OpResult<Out>)
    ensures r.Built? <==> Stackable(sources, name, mustBeF32)
    ensures r.Built? ==>
      var kind := OutputKind(mustBeF32, name, sources[0]);
      r.value == Out(name, kind, StackShape(sources[0].shape, |sources|),
                     if AllOfKind(sources, kind) then BackToBack(sources) else Stacked(kind, sources))
  {
    if |sources| == 0 {
      return Refused("no source tensors");
    }
    var kind := OutputKind(mustBeF32, name, sources[0]);
    var rawCopy := kind == sources[0].kind;
    var base := sources[0].shape;
    for n := 0 to |sources|
      invariant forall i :: 0 <= i < n ==> OutputKind(mustBeF32, name, sources[i]) == kind && sources[i].shape == base
      invariant rawCopy <==> kind == sources[0].kind && AllOfKind(sources[..n], kind)
    {
      var outType := OutputKind(mustBeF32, name, sources[n]);
      if outType != kind {
        return Refused("mixed tensor types");
      }
      rawCopy := rawCopy && outType == sources[n].kind;
      if sources[n].shape != base {
        return Refused("incompatible shape");
      }
    }
    var shape := base;
    if |shape| >= 3 && shape[2] == 1 {
      shape := shape[2 := |sources|];
    } else {
      shape := shape + [|sources|];
    }
    assert sources[..|sources|] == sources;
    return Built(Out(name, kind, shape, if rawCopy then BackToBack(sources) else Stacked(kind, sources)));
  }

  // ----- payload lengths and meanings

  lemma AllValid(sources: seq<Source>)
    requires AllIntact(sources) && AllDecode(sources)
    ensures forall i :: 0 <= i < |sources| ==>
      Tensors(sources)[i].Valid()
      && Tensors(sources)[i].dims == sources[i].shape
  {
    hide Decodes, Values, Intact;
    forall i | 0 <= i < |sources| ensures Tensors(sources)[i].Valid() { ValuesFill(sources[i]); }
  }

  /** Along-an-axis concatenation fills its declared shape and is Concat. */
  lemma JoinFills(sources: seq<Source>, dim: nat, name: bytes, mustBeF32: bytes -> bool)
    requires Joinable(sources, dim, name, mustBeF32) && AllIntact(sources) && AllDecode(sources)
    ensures Compatible(Tensors(sources), dim)
    ensures Concat(Tensors(sources), dim).dims == JoinedShape(sources, dim)
    ensures |Concat(Tensors(sources), dim).data| == Size(JoinedShape(sources, dim))
  {
    hide Decodes, Values, Intact;
    AllValid(sources);
    var ts := Tensors(sources);
    forall i | 0 <= i < |sources| ensures Fits(ts[i], sources[0].shape, dim) {
      assert SameAway(sources[i].shape, sources[0].shape, dim);
    }
    assert Widths(ts, dim) == Extents(sources, dim);
    assert ConcatDims(ts, dim) == JoinedShape(sources, dim);
  }

  /** Along the outermost axis, concatenation is laying the data end to end. */
  lemma ConcatOutermost<T>(parts: seq<Tensor<T>>)
    requires Compatible(parts, 0)
    ensures Concat(parts, 0).data == JoinData(parts)
  {
    hide RowsAreJoined, Compatible, Size, JoinData;
    OutermostRow(parts);
    ConcatFromRows(JoinData(parts), parts, 0);
  }

  lemma PartsInOneRow<T>(parts: seq<Tensor<T>>)
    requires Compatible(parts, 0)
    ensures Size(parts[0].dims[..0]) == 1
    ensures Join(PartRows(parts, 0, 0)) == JoinData(parts)
  {
    assert parts[0].dims[..0] == [] && Size([]) == 1;
    hide Size;
    var rows := PartRows(parts, 0, 0);
    forall p | 0 <= p < |parts| ensures rows[p] == parts[p].data {
      PartRow(parts, 0, p, 0);
      assert Fits(parts[p], parts[0].dims, 0);
    }
    JoinIsJoinData(parts, rows);
  }

  /** Along the outermost dimension there is a single row: every part end to end. */
  lemma OutermostRow<T>(parts: seq<Tensor<T>>)
    requires Compatible(parts, 0)
    ensures RowsAreJoined(JoinData(parts), parts, 0, Size(parts[0].dims[..0]))
  {
    hide Size, Sum, Join, JoinData, Row;
    PartsInOneRow(parts);
    var rows, width := PartRows(parts, 0, 0), Sum(Widths(parts, 0)) * Size(parts[0].dims[1..]);
    JoinLength(parts, 0, 0, |parts|);
    assert |Join(rows)| == width by {
      assert rows[..|parts|] == rows && Widths(parts, 0)[..|parts|] == Widths(parts, 0);
    }
    WholeRow(JoinData(parts), width);
    assert JoinedRow(JoinData(parts), parts, 0, width, 0);
  }

  lemma WholeRow<T>(s: seq<T>, width: int)
    requires |s| == width
    ensures |s| == 1 * width && (0 + 1) * width <= |s| && Row(s, 0, width) == s
  {}

  lemma {:induction false} JoinIsJoinData<T>(parts: seq<Tensor<T>>, rows: seq<seq<T>>)
    requires |rows| == |parts| && forall p :: 0 <= p < |parts| ==> rows[p] == parts[p].data
    ensures Join(rows) == JoinData(parts)
  {
    if parts != [] {
      JoinIsJoinData(parts[..|parts|-1], rows[..|parts|-1]);
    }
  }

  /** The same data with dims listed slowest first. */
  function Reverse(s: seq<int>): (r: seq<int>)
    ensures |r| == |s| && forall k :: 0 <= k < |s| ==> r[k] == s[|s|-1-k]
  {
    if s == [] then [] else [s[|s|-1]] + Reverse(s[..|s|-1])
  }

  lemma {:induction false} SizeReverse(s: seq<int>)
    ensures Size(Reverse(s)) == Size(s)
  {
    if s != [] {
      var n := |s| - 1;
      SizeReverse(s[..n]);
      SizeSplit(s, n);
      assert s[n..] == [s[n]] && [s[n]][1..] == [];
      assert Size([s[n]]) == s[n] * Size([]);
      assert Reverse(s)[1..] == Reverse(s[..n]);
    }
  }

  /** Each part with its dims slowest first, under one extra leading dimension if `lead`. */
  function SlowestFirst<T>(parts: seq<Tensor<T>>, lead: bool): (r: seq<Tensor<T>>)
    ensures |r| == |parts|
    ensures forall i :: 0 <= i < |r| ==> r[i] == Tensor(parts[i].data,
                                                        if lead then [1] + Reverse(parts[i].dims)
                                                        else Reverse(parts[i].dims))
  {
    seq(|parts|, i requires 0 <= i < |parts| => Tensor(parts[i].data,
                                                       if lead then [1] + Reverse(parts[i].dims)
                                                       else Reverse(parts[i].dims)))
  }

  lemma {:induction false} SameJoin<T>(a: seq<Tensor<T>>, b: seq<Tensor<T>>)
    requires |a| == |b| && forall i :: 0 <= i < |a| ==> a[i].data == b[i].data
    ensures JoinData(a) == JoinData(b)
  {
    if a != [] { SameJoin(a[..|a|-1], b[..|b|-1]); }
  }

  /** Laying the parts end to end is concatenating `slow` along its outermost axis. */
  ghost predicate IsOuterConcat<T>(slow: seq<Tensor<T>>, parts: seq<Tensor<T>>, dims: seq<int>) {
    && Compatible(slow, 0)
    && Concat(slow, 0) == Tensor(JoinData(parts), dims)
  }

  lemma EndToEndIsConcat<T>(slow: seq<Tensor<T>>, parts: seq<Tensor<T>>, dims: seq<int>)
    requires Compatible(slow, 0) && ConcatDims(slow, 0) == dims
    requires |slow| == |parts| && forall i :: 0 <= i < |slow| ==> slow[i].data == parts[i].data
    ensures IsOuterConcat(slow, parts, dims)
    ensures |JoinData(parts)| == Size(dims)
  {
    ConcatOutermost(slow);
    SameJoin(slow, parts);
  }

  lemma ReversedFits<T>(t: Tensor<T>, like: seq<int>, dim: nat)
    requires t.Valid() && SameAway(t.dims, like, dim) && dim == |like| - 1
    ensures Fits(Tensor(t.data, Reverse(t.dims)), Reverse(like), 0)
    ensures Reverse(t.dims)[0] == t.dims[dim]
  {
    SizeReverse(t.dims);
  }

  /** Slow-dimension concatenation is the concatenation along that dimension, slowest first. */
  lemma SlowJoinIsConcat(sources: seq<Source>, dim: nat, name: bytes, mustBeF32: bytes -> bool)
    requires Joinable(sources, dim, name, mustBeF32) && dim == |sources[0].shape| - 1 && AllIntact(sources)
      && AllDecode(sources)
    ensures IsOuterConcat(SlowestFirst(Tensors(sources), false), Tensors(sources), Reverse(JoinedShape(sources, dim)))
    ensures |JoinData(Tensors(sources))| == Size(JoinedShape(sources, dim))
  {
    hide Size, IsOuterConcat, JoinData, Compatible, ConcatDims, Concat, Fits, Sum, Reverse, Decodes, Values, Intact;
    AllValid(sources);
    var slow := SlowestFirst(Tensors(sources), false);
    var base, w := sources[0].shape, Extents(sources, dim);
    assert slow[0].dims == Reverse(base);
    forall i | 0 <= i < |sources| ensures Fits(slow[i], Reverse(base), 0) && slow[i].dims[0] == w[i] {
      assert SameAway(sources[i].shape, base, dim);
      ReversedFits(Tensors(sources)[i], base, dim);
    }
    ReversedCompatible(slow, Reverse(base), w);
    var shape: seq<int> := JoinedShape(sources, dim);
    ReverseUpdate(base, Sum(w));
    assert shape == base[dim := Sum(w)];
    EndToEndIsConcat(slow, Tensors(sources), Reverse(shape));
    SizeReverse(shape);
  }

  lemma ReverseUpdate(s: seq<int>, v: int)
    requires |s| > 0
    ensures Reverse(s)[0 := v] == Reverse(s[|s|-1 := v])
  {}

  lemma ReversedCompatible<T>(slow: seq<Tensor<T>>, like: seq<int>, w: seq<int>)
    requires |slow| == |w| > 0 && |like| > 0 && slow[0].dims == like
    requires forall i :: 0 <= i < |slow| ==> Fits(slow[i], like, 0) && slow[i].dims[0] == w[i]
    ensures Compatible(slow, 0)
    ensures ConcatDims(slow, 0) == like[0 := Sum(w)]
  {
    assert Widths(slow, 0) == w;
  }

  lemma LedFits<T>(t: Tensor<T>, base: seq<int>)
    requires t.Valid() && t.dims == base
    ensures Fits(Tensor(t.data, [1] + Reverse(base)), [1] + Reverse(base), 0)
  {
    SizeReverse(base);
    assert ([1] + Reverse(base))[1..] == Reverse(base);
  }

  lemma StackCompatible<T>(slow: seq<Tensor<T>>, rest: seq<int>)
    requires |slow| > 0
    requires forall i :: 0 <= i < |slow| ==> slow[i].dims == [1] + rest && Fits(slow[i], [1] + rest, 0)
    ensures Compatible(slow, 0)
    ensures ConcatDims(slow, 0) == [|slow|] + rest
  {
    assert Widths(slow, 0) == Equal(|slow|, 1);
    SumEqual(|slow|, 1);
  }

  /** Stacking is concatenation under a new slowest dimension, and the declared shape holds it all. */
  lemma StackIsConcat(sources: seq<Source>, name: bytes, mustBeF32: bytes -> bool)
    requires Stackable(sources, name, mustBeF32) && AllIntact(sources) && AllDecode(sources)
    ensures IsOuterConcat(SlowestFirst(Tensors(sources), true), Tensors(sources),
                          [|sources|] + Reverse(sources[0].shape))
    ensures |JoinData(Tensors(sources))| == Size(StackShape(sources[0].shape, |sources|))
  {
    hide Size, IsOuterConcat, StackShape, JoinData, Compatible, ConcatDims, Concat, Reverse, Fits, Decodes, Values,
      Intact;
    AllValid(sources);
    var base, n := sources[0].shape, |sources|;
    var slow := SlowestFirst(Tensors(sources), true);
    forall i | 0 <= i < n ensures slow[i].dims == [1] + Reverse(base) && Fits(slow[i], [1] + Reverse(base), 0) {
      LedFits(Tensors(sources)[i], base);
    }
    StackCompatible(slow, Reverse(base));
    var dims := [n] + Reverse(base);
    EndToEndIsConcat(slow, Tensors(sources), dims);
    SizeCons(n, Reverse(base));
    SizeReverse(base);
    StackSize(base, n);
  }

  lemma SizeCons(n: int, s: seq<int>)
    ensures Size([n] + s) == n * Size(s)
  {
    assert ([n] + s)[1..] == s;
  }

  lemma StackSize(base: seq<nat>, n: nat)
    ensures Size(StackShape(base, n)) == n * Size(base)
  {
    if |base| >= 3 && base[2] == 1 {
      SizeUpdate(base, 2, n);
    } else {
      var s := base + [n];
      SizeSplit(s, |base|);
      assert s[..|base|] == base && s[|base|..] == [n] && [n][1..] == [];
      assert Size([n]) == n * Size([]);
    }
  }
}
