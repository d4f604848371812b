/** Whole tensors and single rows of packed data: compatmigrate/tensor_ops.go, decodeTensorData, and
    compatmigrate/tensor_row.go, decodeTensorRow and sourceTensorRow.WriteTo. */
module RowReader {
  import opened RowMajor
  import opened BlockFormat
  import opened RowDecoders

  method DecodeSingles(b: seq<byte>) returns (out: seq<Float>)
    ensures |out| == |b| / 4
    ensures forall i :: 0 <= i < |out| ==>
      out[i] == Single(U16(b[i * 4], b[i * 4 + 1]) + 65536 * U16(b[i * 4 + 2], b[i * 4 + 3]))
  {
    var a := new Float[|b| / 4](_ => FromInt(0));
    for i := 0 to a.Length
      invariant forall k :: 0 <= k < i ==>
        a[k] == Single(U16(b[k * 4], b[k * 4 + 1]) + 65536 * U16(b[k * 4 + 2], b[k * 4 + 3]))
    {
      a[i] := Single(U16(b[i * 4], b[i * 4 + 1]) + 65536 * U16(b[i * 4 + 2], b[i * 4 + 3]));
    }
    return a[..];
  }

  method DecodeHalves(kind: Kind, b: seq<byte>) returns (out: seq<Float>)
    requires kind in {F16, BF16}
    ensures |out| == |b| / 2
    ensures forall i :: 0 <= i < |out| ==> out[i] == if kind == F16 then Half(U16(b[i * 2], b[i * 2 + 1]))
      else BHalf(U16(b[i * 2], b[i * 2 + 1]))
  {
    var a := new Float[|b| / 2](_ => FromInt(0));
    for i := 0 to a.Length
      invariant forall k :: 0 <= k < i ==> a[k] == if kind == F16 then Half(U16(b[k * 2], b[k * 2 + 1]))
        else BHalf(U16(b[k * 2], b[k * 2 + 1]))
    {
      a[i] := if kind == F16 then Half(U16(b[i * 2], b[i * 2 + 1])) else BHalf(U16(b[i * 2], b[i * 2 + 1]));
    }
    return a[..];
  }

  /** decodeFloatTensor: as many elements as the bytes hold whole. */
  method DecodeFloatTensor(kind: Kind, b: seq<byte>) returns (r: Result<seq<Float>>)
    ensures r.Ok? <==> kind in {F32, F16, BF16}
    ensures r.Ok? ==> r.value == FloatValues(kind, b)
  {
    if kind == F32 {
      var out := DecodeSingles(b);
      SameFloats(kind, b, out);
      return Ok(out);
    } else if kind == F16 || kind == BF16 {
      var out := DecodeHalves(kind, b);
      SameFloats(kind, b, out);
      return Ok(out);
    } else {
      return Err("repacking tensor type is unsupported");
    }
  }

  function FloatCount(kind: Kind, b: seq<byte>): nat { |b| / BlockBytes(kind) }

  /** The whole values of float data; bytes left over are ignored. */
  function FloatValues(kind: Kind, b: seq<byte>): (r: seq<Float>)
    requires kind in {F32, F16, BF16}
    ensures |r| == FloatCount(kind, b)
    ensures Fits(kind, b, FloatCount(kind, b)) ==> r == Elements(kind, b, FloatCount(kind, b))
  {
    var n := FloatCount(kind, b);
    var whole := b[..n * BlockBytes(kind)];
    assert Fits(kind, whole, n);
    assert Fits(kind, b, n) ==> whole == b;
    Elements(kind, whole, n)
  }

  lemma SameFloats(kind: Kind, b: seq<byte>, out: seq<Float>)
    requires kind in {F32, F16, BF16} && |out| == FloatCount(kind, b)
    requires forall i :: 0 <= i < |out| ==>
      (i + 1) * BlockBytes(kind) <= |b|
      && out[i] == BlockElement(kind, Block(kind, b, i), 0)
    ensures out == FloatValues(kind, b)
  {
    var n := FloatCount(kind, b);
    var whole := b[..n * BlockBytes(kind)];
    forall i | 0 <= i < n ensures out[i] == Element(kind, whole, n, i) {
      assert i / 1 == i && i % 1 == 0;
      MulMonotone(i + 1, n, BlockBytes(kind));
      assert Block(kind, whole, i) == Block(kind, b, i);
    }
  }

  /** decodeTensorRow: float bytes left over are ignored, packed rows are whole blocks. */
  method DecodeTensorRow(kind: Kind, b: seq<byte>, n: nat) returns (r: Result<seq<Float>>)
    ensures kind in {F32, F16, BF16} ==>
      (r.Ok? <==> FloatCount(kind, b) == n) && (r.Ok? ==> r.value == FloatValues(kind, b))
    ensures kind !in {F32, F16, BF16} ==> (r.Ok? <==> Fits(kind, b, n)) && ReadsPacked(kind, b, n, r)
    ensures Fits(kind, b, n) ==> r == Ok(Elements(kind, b, n))
    ensures r.Ok? ==> |r.value| == n
  {
    hide ReadsPacked;
    match kind
    case F32 => r := DecodeFloatRow(kind, b, n);
    case F16 => r := DecodeFloatRow(kind, b, n);
    case BF16 => r := DecodeFloatRow(kind, b, n);
    case Q8_0 => r := DecodeQ8_0Row(b, n);
    case Q5_0 => r := DecodeQ5_0Row(b, n);
    case Q4_K => r := DecodeQ4KRow(b, n);
    case Q6_K => r := DecodeQ6KRow(b, n);
  }

  method DecodeFloatRow(kind: Kind, b: seq<byte>, n: nat) returns (r: Result<seq<Float>>)
    requires kind in {F32, F16, BF16}
    ensures r.Ok? <==> FloatCount(kind, b) == n
    ensures r.Ok? ==> r.value == FloatValues(kind, b)
    ensures Fits(kind, b, n) ==> r == Ok(Elements(kind, b, n))
  {
    r := DecodeFloatTensor(kind, b);
    assert Fits(kind, b, n) ==> FloatCount(kind, b) == n && |b| % BlockBytes(kind) == 0;
    if |r.value| != n {
      return Err("decoded the wrong number of values");
    }
  }

  // ----- whole tensors

  /** Bytes of one row of cols elements; 0 when a row is not a whole number of blocks. */
  function RowBytes(kind: Kind, cols: nat): nat {
    if cols % BlockLen(kind) == 0 then cols / BlockLen(kind) * BlockBytes(kind) else 0
  }

  /** The bytes of a row hold its elements. */
  lemma OneRowFits(kind: Kind, b: seq<byte>, cols: nat)
    requires RowBytes(kind, cols) > 0 && |b| == RowBytes(kind, cols)
    ensures Fits(kind, b, cols)
  {}

  lemma RowsFit(kind: Kind, cols: nat, rows: nat)
    requires cols % BlockLen(kind) == 0
    ensures (cols * rows) % BlockLen(kind) == 0
    ensures cols * rows / BlockLen(kind) * BlockBytes(kind) == RowBytes(kind, cols) * rows
  {
    WholeRows(cols, rows, BlockLen(kind), BlockBytes(kind));
  }

  lemma WholeRows(cols: nat, rows: nat, len: nat, bytes: nat)
    requires len > 0 && cols % len == 0
    ensures (cols * rows) % len == 0
    ensures cols * rows / len * bytes == cols / len * bytes * rows
  {
    var k := cols / len;
    assert cols == k * len;
    assert cols * rows == (k * rows) * len + 0 by {
      MulAssociative(rows, k, len);
    }
    DivideSum(k * rows, len, 0);
    MulAssociative(k, rows, bytes);
    MulAssociative(k, bytes, rows);
  }

  /** Bytes of row `row`. */
  function RowSlice(b: seq<byte>, rowBytes: nat, rows: nat, row: nat): (r: seq<byte>)
    requires |b| == rowBytes * rows && row < rows
    ensures |r| == rowBytes
  {
    RowBounds(rowBytes, rows, row);
    b[row * rowBytes..(row + 1) * rowBytes]
  }

  lemma RowBounds(rowBytes: nat, rows: nat, row: nat)
    requires row < rows
    ensures 0 <= row * rowBytes <= (row + 1) * rowBytes <= rowBytes * rows
    ensures (row + 1) * rowBytes == row * rowBytes + rowBytes
  {
    MulMonotone(row + 1, rows, rowBytes);
    MulDistributes(row, 1, rowBytes);
    MulNonNegative(row, rowBytes);
  }

  /** A row's elements inside the whole tensor are the elements of the row's own bytes. */
  lemma RowElement(kind: Kind, b: seq<byte>, cols: nat, rows: nat, row: nat, c: nat)
    requires cols % BlockLen(kind) == 0 && |b| == RowBytes(kind, cols) * rows && row < rows && c < cols
    ensures Fits(kind, b, cols * rows) && 0 <= row * cols + c < cols * rows
    ensures Fits(kind, RowSlice(b, RowBytes(kind, cols), rows, row), cols)
    ensures Element(kind, b, cols * rows, row * cols + c)
      == Element(kind, RowSlice(b, RowBytes(kind, cols), rows, row), cols, c)
  {
    hide BlockElement;
    RowsFit(kind, cols, rows);
    RowBounds(cols, rows, row);
    RowBlock(cols, BlockLen(kind), row, c);
    BlockInRange(kind, cols, c);
    BlockInRange(kind, cols * rows, row * cols + c);
    SameBlock(kind, b, cols / BlockLen(kind), rows, row, c / BlockLen(kind));
  }

  /** Block i of row `row` is block row*k + i of the whole. */
  lemma SameBlock(kind: Kind, b: seq<byte>, k: nat, rows: nat, row: nat, i: nat)
    requires |b| == k * BlockBytes(kind) * rows && row < rows && i < k
    ensures (i + 1) * BlockBytes(kind) <= k * BlockBytes(kind)
    ensures 0 <= row * k + i && (row * k + i + 1) * BlockBytes(kind) <= |b|
    ensures Block(kind, b, row * k + i) == Block(kind, RowSlice(b, k * BlockBytes(kind), rows, row), i)
  {
    var bytes := BlockBytes(kind);
    MulMonotone(i + 1, k, bytes);
    RowBounds(k * bytes, rows, row);
    MulNonNegative(row, k);
    MulDistributes(row * k, i, bytes);
    MulDistributes(row * k, i + 1, bytes);
    MulAssociative(row, k, bytes);
    MulNonNegative(i, bytes);
    MulDistributes(i, 1, bytes);
    SliceOfSlice(b, row * (k * bytes), (row + 1) * (k * bytes), i * bytes, (i + 1) * bytes);
  }

  lemma SliceOfSlice<T>(s: seq<T>, lo: int, hi: int, a: int, b: int)
    requires 0 <= lo <= hi <= |s| && 0 <= a <= b <= hi - lo
    ensures s[lo..hi][a..b] == s[lo + a..lo + b]
  {
    forall k | 0 <= k < b - a ensures s[lo..hi][a..b][k] == s[lo + a..lo + b][k] {
      assert s[lo..hi][a + k] == s[lo + a + k];
    }
  }

  lemma RowBlock(cols: nat, len: nat, row: nat, c: nat)
    requires len > 0 && cols % len == 0 && c < cols
    ensures (row * cols + c) / len == row * (cols / len) + c / len
    ensures (row * cols + c) % len == c % len
  {
    var k := cols / len;
    assert cols == k * len;
    MulAssociative(row, k, len);
    MulDistributes(row * k, c / len, len);
    assert c == (c / len) * len + c % len;
    DivideSum(row * k + c / len, len, c % len);
  }

  /** The shapes decodeTensorData takes packed data of: only the first two dimensions count. */
  function Cols(shape: seq<nat>): nat { if shape == [] then 0 else shape[0] }
  function Rows(shape: seq<nat>): nat { if |shape| > 1 then shape[1] else 1 }

  predicate PackedShape(kind: Kind, b: seq<byte>, shape: seq<nat>) {
    && shape != [] && Rows(shape) > 0 && Cols(shape) > 0
    && Cols(shape) % BlockLen(kind) == 0
    && |b| == RowBytes(kind, Cols(shape)) * Rows(shape)
  }

  /** Float data decodes whatever its shape, packed data as whole rows of two dimensions. */
  predicate Decodable(kind: Kind, b: seq<byte>, shape: seq<nat>) {
    kind in {F32, F16, BF16} || PackedShape(kind, b, shape)
  }

  /** The closed form of a whole tensor. */
  function DecodedValues(kind: Kind, b: seq<byte>, shape: seq<nat>): seq<Float>
    requires Decodable(kind, b, shape)
  {
    if kind in {F32, F16, BF16} then FloatValues(kind, b)
    else
      RowsFit(kind, Cols(shape), Rows(shape));
      Elements(kind, b, Cols(shape) * Rows(shape))
  }

  method DecodeTensorData(kind: Kind, b: seq<byte>, shape: seq<nat>) returns (r: Result<seq<Float>>)
    ensures r.Ok? <==> Decodable(kind, b, shape)
    ensures r.Ok? ==> r.value == DecodedValues(kind, b, shape)
  {
    if kind in {F32, F16, BF16} {
      r := DecodeFloatTensor(kind, b);
      return;
    }
    if |shape| == 0 {
      return Err("decoded tensor shape is empty");
    }
    var cols := shape[0];
    var rows := 1;
    if |shape| > 1 {
      rows := shape[1];
    }
    if rows <= 0 || cols <= 0 {
      return Err("invalid tensor shape");
    }
    var rowBytes := RowBytes(kind, cols);
    if rowBytes <= 0 {
      return Err("unsupported row width");
    }
    if |b| != rowBytes * rows {
      return Err("tensor has the wrong number of bytes");
    }
    RowsFit(kind, cols, rows);
    ghost var want := Elements(kind, b, cols * rows);
    forall row | 0 <= row < rows ensures IsRow(kind, b, cols, rows, want, row) {
      RowIsSlice(kind, b, cols, rows, row);
    }
    r := DecodeRows(kind, b, cols, rows, rowBytes, want);
  }

  /** want holds the elements of every row, in order. */
  ghost predicate RowsOf(kind: Kind, b: seq<byte>, cols: nat, rows: nat, want: seq<Float>)
    requires cols % BlockLen(kind) == 0 && |b| == RowBytes(kind, cols) * rows
  {
    |want| == cols * rows && forall row :: 0 <= row < rows ==> IsRow(kind, b, cols, rows, want, row)
  }

  ghost predicate IsRow(kind: Kind, b: seq<byte>, cols: nat, rows: nat, want: seq<Float>, row: nat)
    requires cols % BlockLen(kind) == 0 && |b| == RowBytes(kind, cols) * rows && row < rows
  {
    && 0 <= row * cols <= (row + 1) * cols <= |want|
    && Elements(kind, RowSlice(b, RowBytes(kind, cols), rows, row), cols) == want[row * cols..(row + 1) * cols]
  }

  /** The row loop of decodeTensorData. */
  method DecodeRows(kind: Kind, b: seq<byte>, cols: nat, rows: nat, rowBytes: nat, ghost want: seq<Float>)
    returns (r: Result<seq<Float>>)
    requires cols > 0 && cols % BlockLen(kind) == 0 && rowBytes == RowBytes(kind, cols) && |b| == rowBytes * rows
    requires RowsOf(kind, b, cols, rows, want)
    ensures r == Ok(want)
  {
    hide Elements;
    var out: seq<Float> := [];
    for row := 0 to rows
      invariant 0 <= row * cols <= |want| && out == want[..row * cols]
    {
      RowBounds(rowBytes, rows, row);
      var decoded := DecodeTensorRow(kind, b[row * rowBytes..(row + 1) * rowBytes], cols);
      assert IsRow(kind, b, cols, rows, want, row);
      out := out + decoded.value;
    }
    MulCommutes(rows, cols);
    assert want[..|want|] == want;
    return Ok(out);
  }

  lemma MulCommutes(a: int, b: int)
    ensures a * b == b * a
  {}

  /** A row decoded by itself is the corresponding stretch of the tensor decoded whole. */
  lemma RowIsSlice(kind: Kind, b: seq<byte>, cols: nat, rows: nat, row: nat)
    requires cols % BlockLen(kind) == 0 && |b| == RowBytes(kind, cols) * rows && row < rows
    ensures Fits(kind, b, cols * rows) && Fits(kind, RowSlice(b, RowBytes(kind, cols), rows, row), cols)
    ensures 0 <= row * cols <= (row + 1) * cols <= cols * rows
    ensures Elements(kind, RowSlice(b, RowBytes(kind, cols), rows, row), cols)
         == Elements(kind, b, cols * rows)[row * cols..(row + 1) * cols]
  {
    hide Element, Elements, RowSlice, RowBytes, Fits, BlockLen, BlockBytes;
    RowBounds(cols, rows, row);
    RowFits(kind, b, cols, rows, row);
    var own := RowSlice(b, RowBytes(kind, cols), rows, row);
    var x, y := Elements(kind, own, cols), Elements(kind, b, cols * rows);
    forall c: nat | c < cols ensures x[c] == y[row * cols + c] { RowElement(kind, b, cols, rows, row, c); }
    SameSlice(x, y, row * cols);
  }

  lemma RowFits(kind: Kind, b: seq<byte>, cols: nat, rows: nat, row: nat)
    requires cols % BlockLen(kind) == 0 && |b| == RowBytes(kind, cols) * rows && row < rows
    ensures Fits(kind, b, cols * rows) && Fits(kind, RowSlice(b, RowBytes(kind, cols), rows, row), cols)
  {
    hide RowSlice;
    RowsFit(kind, cols, rows);
  }

  lemma SameSlice<T>(a: seq<T>, b: seq<T>, lo: nat)
    requires lo + |a| <= |b| && forall c: nat :: c < |a| ==> a[c] == b[lo + c]
    ensures a == b[lo..lo + |a|]
  {}

  // ----- one row, read by offset

  /** The bytes of one row, read at an offset. */
  method ReadRowAt(file: seq<byte>, offset: nat, kind: Kind, cols: nat) returns (r: Result<seq<Float>>)
    requires RowBytes(kind, cols) > 0
    ensures r.Ok? <==> offset + RowBytes(kind, cols) <= |file|
    ensures r.Ok? ==>
      var data := file[offset..offset + RowBytes(kind, cols)];
      Fits(kind, data, cols) && r.value == Elements(kind, data, cols)
  {
    hide RowBytes, Fits, Elements, ReadsPacked, FloatValues, FloatCount;
    var rowBytes := RowBytes(kind, cols);
    if offset + rowBytes > |file| {
      return Err("unexpected EOF");
    }
    var data := file[offset..offset + rowBytes];
    OneRowFits(kind, data, cols);
    r := DecodeTensorRow(kind, data, cols);
  }

  /** sourceTensorRow.WriteTo up to the encoding: the row's values, read at its own offset in the file. */
  method ReadRow(file: seq<byte>, dataOffset: nat, tensorOffset: nat, kind: Kind, cols: nat, row: nat)
    returns (r: Result<seq<Float>>)
    ensures r.Ok? ==> RowBytes(kind, cols) > 0 && dataOffset + tensorOffset + (row + 1) * RowBytes(kind, cols) <= |file|
    ensures RowBytes(kind, cols) > 0 && dataOffset + tensorOffset + (row + 1) * RowBytes(kind, cols) <= |file| ==> r.Ok?
    ensures r.Ok? ==>
      var start := dataOffset + tensorOffset + row * RowBytes(kind, cols);
      && 0 <= start <= start + RowBytes(kind, cols) <= |file|
      && Fits(kind, file[start..start + RowBytes(kind, cols)], cols)
      && r.value == Elements(kind, file[start..start + RowBytes(kind, cols)], cols)
  {
    hide RowBytes, Fits, Elements;
    var rowBytes := RowBytes(kind, cols);
    if rowBytes <= 0 {
      return Err("unsupported row tensor type");
    }
    MulDistributes(row, 1, rowBytes);
    MulNonNegative(row, rowBytes);
    r := ReadRowAt(file, dataOffset + tensorOffset + row * rowBytes, kind, cols);
  }

  function TensorBytes(file: seq<byte>, base: nat, n: nat): (b: seq<byte>)
    requires base + n <= |file|
    ensures |b| == n
  {
    file[base..base + n]
  }

  /** The bytes ReadRow reads. */
  function RowAt(file: seq<byte>, base: nat, rowBytes: nat, rows: nat, row: nat): (b: seq<byte>)
    requires row < rows && base + rowBytes * rows <= |file|
    ensures |b| == rowBytes
  {
    RowBounds(rowBytes, rows, row);
    file[base + row * rowBytes..base + row * rowBytes + rowBytes]
  }

  /** The row's own elements are its stretch of the tensor's. */
  ghost predicate IsStretch(kind: Kind, rowData: seq<byte>, tensor: seq<byte>, cols: nat, rows: nat, row: nat) {
    && Fits(kind, tensor, cols * rows) && Fits(kind, rowData, cols)
    && 0 <= row * cols <= (row + 1) * cols <= cols * rows
    && Elements(kind, rowData, cols) == Elements(kind, tensor, cols * rows)[row * cols..(row + 1) * cols]
  }

  /** Reading one row by offset gives that row of the tensor decoded whole. */
  lemma RowByOffset(file: seq<byte>, dataOffset: nat, tensorOffset: nat, kind: Kind, cols: nat, rows: nat, row: nat)
    requires cols > 0 && cols % BlockLen(kind) == 0 && row < rows
    requires dataOffset + tensorOffset + RowBytes(kind, cols) * rows <= |file|
    ensures var base, rowBytes := dataOffset + tensorOffset, RowBytes(kind, cols);
      IsStretch(kind, RowAt(file, base, rowBytes, rows, row), TensorBytes(file, base, rowBytes * rows), cols, rows, row)
  {
    hide Elements, RowBytes, Fits, BlockLen;
    var base, rowBytes := dataOffset + tensorOffset, RowBytes(kind, cols);
    var tensor := TensorBytes(file, base, rowBytes * rows);
    RowBounds(rowBytes, rows, row);
    RowIsSlice(kind, tensor, cols, rows, row);
    SliceOfSlice(file, base, base + rowBytes * rows, row * rowBytes, (row + 1) * rowBytes);
    assert RowSlice(tensor, rowBytes, rows, row) == RowAt(file, base, rowBytes, rows, row);
  }
}
