/** Patch and position-embedding repackers: Qwen3-VL's temporal split and Nemotron's reshapes. */
module PatchRepackers {
  import opened RowMajor
  import opened Permutations
  import opened TensorLayout
  import opened LayoutOps
  import opened LayoutLaws
  import opened SmallRanks
  import opened Repackers

  lemma CellInRange(a: nat, b: nat, x: nat, y: nat)
    requires a < x && b < y
    ensures 0 <= a * y + b < x * y
  {
    MulMonotone(a + 1, x, y);
    MulDistributes(a, 1, y);
  }

  // ----- compatmigrate/qwen3vl.go: one temporal index of a [flat, temporal, height, width] patch tensor

  /** Source position of result position k. */
  function PatchSource(k: int, flat: nat, temporal: nat, h: nat, w: nat, ti: nat): (s: int)
    requires 0 <= k < Size([flat, h, w]) && ti < temporal
    ensures 0 <= s < Size([flat, temporal, h, w])
  {
    var j := Unflat(k, [flat, h, w]);
    PatchInBounds(j, flat, temporal, h, w, ti);
    Flat([j[0], ti, j[1], j[2]], [flat, temporal, h, w])
  }

  lemma PatchInBounds(j: seq<int>, flat: nat, temporal: nat, h: nat, w: nat, ti: nat)
    requires InBounds(j, [flat, h, w]) && ti < temporal
    ensures |j| == 3 && InBounds([j[0], ti, j[1], j[2]], [flat, temporal, h, w])
    ensures 0 <= Flat([j[0], ti, j[1], j[2]], [flat, temporal, h, w]) < Size([flat, temporal, h, w])
  {
    assert 0 <= j[0] < [flat, h, w][0] && 0 <= j[1] < [flat, h, w][1] && 0 <= j[2] < [flat, h, w][2];
    FlatInRange([j[0], ti, j[1], j[2]], [flat, temporal, h, w]);
  }

  lemma PatchPosition(f: nat, y: nat, x: nat, flat: nat, temporal: nat, h: nat, w: nat, ti: nat)
    requires f < flat && y < h && x < w && ti < temporal
    ensures 0 <= (f * h + y) * w + x < Size([flat, h, w])
    ensures PatchSource((f * h + y) * w + x, flat, temporal, h, w, ti) == ((f * temporal + ti) * h + y) * w + x
  {
    var j := [f, y, x];
    Flat3(f, y, x, flat, h, w);
    assert InBounds(j, [flat, h, w]);
    UnflatFlat(j, [flat, h, w]);
    Flat4(f, ti, y, x, flat, temporal, h, w);
  }

  /** What the split of shape [width, height, temporal, flat] accepts. */
  predicate PatchShape(shape: seq<nat>, channels: nat, ti: nat)
    requires channels > 0
  {
    |shape| == 4 && ti < shape[2] && shape[3] % channels == 0
  }

  /** Every position the split reads lies inside the data. */
  ghost predicate PatchReachable(dataLen: nat, shape: seq<nat>, channels: nat, ti: nat)
    requires channels > 0 && PatchShape(shape, channels, ti)
  {
    forall k :: 0 <= k < Size([shape[3], shape[1], shape[0]]) ==>
      PatchSource(k, shape[3], shape[2], shape[1], shape[0], ti) < dataLen
  }

  /** The first n positions of the result hold what the split promises. */
  ghost predicate PatchCopied<T>(s: seq<T>, data: seq<T>, flat: nat, temporal: nat, h: nat, w: nat, ti: nat, n: int)
    requires ti < temporal
  {
    && |s| == Size([flat, h, w]) && 0 <= n <= |s|
    && forall k :: 0 <= k < n ==>
      PatchSource(k, flat, temporal, h, w, ti) < |data| && s[k] == data[PatchSource(k, flat, temporal, h, w, ti)]
  }

  lemma PatchCount(flat: nat, channels: nat, h: nat, w: nat)
    requires channels > 0 && flat % channels == 0
    ensures flat / channels * channels == flat
    ensures w * h * channels * (flat / channels) == Size([flat, h, w]) >= 0
  {
    var hidden := flat / channels;
    assert hidden * channels == flat;
    Size3(flat, h, w);
    MulAssociative(w * h, channels, hidden);
    MulNonNegative(h, w);
    MulNonNegative(flat, h * w);
  }

  method Qwen3VLSplitPatch<T(0)>(data: seq<T>, shape: seq<nat>, channels: nat, ti: nat) returns (r: Outcome<seq<T>>)
    requires channels > 0
    ensures r.Done? <==> PatchShape(shape, channels, ti) && PatchReachable(|data|, shape, channels, ti)
    ensures r.Done? ==>
      PatchCopied(r.value, data, shape[3], shape[2], shape[1], shape[0], ti, Size([shape[3], shape[1], shape[0]]))
  {
    if |shape| != 4 {
      return Failed("expected source rank 4");
    }
    if shape[2] <= ti {
      return Failed("temporal index out of range");
    }
    if shape[3] % channels != 0 {
      return Failed("channel dimension not divisible");
    }
    r := CopyPatch(data, shape[0], shape[1], shape[2], shape[3], channels, ti);
  }

  lemma PatchStep<T>(s: seq<T>, data: seq<T>, flat: nat, temporal: nat, h: nat, w: nat, ti: nat, f: nat, y: nat, x: nat)
    requires f < flat && y < h && x < w && ti < temporal
    requires PatchCopied(s, data, flat, temporal, h, w, ti, (f * h + y) * w + x)
    ensures var dst := (f * h + y) * w + x;
      var src := ((f * temporal + ti) * h + y) * w + x;
      && 0 <= dst < |s| && 0 <= src && PatchSource(dst, flat, temporal, h, w, ti) == src
      && (src < |data| ==> PatchCopied(s[dst := data[src]], data, flat, temporal, h, w, ti, dst + 1))
  {
    PatchPosition(f, y, x, flat, temporal, h, w, ti);
  }

  ghost predicate PatchFails(dataLen: nat, flat: nat, temporal: nat, h: nat, w: nat, ti: nat)
    requires ti < temporal
  {
    exists k :: 0 <= k < Size([flat, h, w]) && PatchSource(k, flat, temporal, h, w, ti) >= dataLen
  }

  /** The loops over height and width: one [height, width] plane of the result. */
  method CopyPlane<T>(result: array<T>, data: seq<T>, flat: nat, temporal: nat, h: nat, w: nat, ti: nat, flatOC: nat,
                      dst0: nat)
    returns (ok: bool, dst: nat)
    requires ti < temporal && flatOC < flat && dst0 == flatOC * h * w
    requires PatchCopied(result[..], data, flat, temporal, h, w, ti, dst0)
    modifies result
    ensures ok ==> dst == (flatOC + 1) * h * w && PatchCopied(result[..], data, flat, temporal, h, w, ti, dst)
    ensures !ok ==> PatchFails(|data|, flat, temporal, h, w, ti)
  {
    dst := dst0;
    for y := 0 to h
      invariant dst == (flatOC * h + y) * w
      invariant PatchCopied(result[..], data, flat, temporal, h, w, ti, dst)
    {
      for x := 0 to w
        invariant dst == (flatOC * h + y) * w + x
        invariant PatchCopied(result[..], data, flat, temporal, h, w, ti, dst)
      {
        var src := (((flatOC * temporal + ti) * h) + y) * w + x;
        PatchStep(result[..], data, flat, temporal, h, w, ti, flatOC, y, x);
        if src >= |data| {
          return false, dst;
        }
        result[dst] := data[src];
        dst := dst + 1;
      }
      MulDistributes(flatOC * h + y, 1, w);
    }
    MulDistributes(flatOC, 1, h);
    return true, dst;
  }

  method CopyPatch<T(0)>(data: seq<T>, w: nat, h: nat, temporal: nat, flat: nat, channels: nat, ti: nat)
    returns (r: Outcome<seq<T>>)
    requires channels > 0 && ti < temporal && flat % channels == 0
    ensures r.Failed? ==> PatchFails(|data|, flat, temporal, h, w, ti)
    ensures r.Done? ==> PatchCopied(r.value, data, flat, temporal, h, w, ti, Size([flat, h, w]))
  {
    var hidden := flat / channels;
    PatchCount(flat, channels, h, w);
    var result := new T[w * h * channels * hidden];
    var dst := 0;
    for outIdx := 0 to hidden
      invariant dst == outIdx * channels * h * w
      invariant PatchCopied(result[..], data, flat, temporal, h, w, ti, dst)
    {
      for channel := 0 to channels
        invariant dst == (outIdx * channels + channel) * h * w
        invariant PatchCopied(result[..], data, flat, temporal, h, w, ti, dst)
      {
        var flatOC := outIdx * channels + channel;
        CellInRange(outIdx, channel, hidden, channels);
        var ok;
        ok, dst := CopyPlane(result, data, flat, temporal, h, w, ti, flatOC, dst);
        if !ok {
          return Failed("source index out of range");
        }
      }
      MulDistributes(outIdx, 1, channels);
    }
    Size3(flat, h, w);
    MulAssociative(flat, h, w);
    return Done(result[..]);
  }

  /** A patch tensor as the row-major tensor its shape describes. */
  function PatchTensor<T>(data: seq<T>, shape: seq<nat>): Tensor<T>
    requires |shape| == 4
  {
    Tensor(data, [shape[3], shape[2], shape[1], shape[0]])
  }

  /** A complete source tensor is always reachable ... */
  lemma CompletePatchReachable<T>(data: seq<T>, shape: seq<nat>, channels: nat, ti: nat)
    requires channels > 0 && PatchShape(shape, channels, ti) && PatchTensor(data, shape).Valid()
    ensures PatchReachable(|data|, shape, channels, ti)
  {}

  lemma PatchElement<T>(data: seq<T>, shape: seq<nat>, channels: nat, ti: nat, half: seq<T>, j: seq<int>)
    requires channels > 0 && PatchShape(shape, channels, ti) && PatchTensor(data, shape).Valid()
    requires PatchCopied(half, data, shape[3], shape[2], shape[1], shape[0], ti, |half|)
    requires InBounds(j, [shape[3], 1, shape[1], shape[0]]) && Tensor(half, [shape[3], 1, shape[1], shape[0]]).Valid()
    requires PatchTensor(data, shape).dims[1 := (ti + 1) - ti] == [shape[3], 1, shape[1], shape[0]]
    ensures Get(Tensor(half, [shape[3], 1, shape[1], shape[0]]), j)
      == Get(Slice(PatchTensor(data, shape), 1, ti, ti + 1), j)
  {
    var w, h, temporal, flat := shape[0], shape[1], shape[2], shape[3];
    var dims: seq<int> := [flat, 1, h, w];
    var t := PatchTensor(data, shape);
    assert 0 <= j[0] < dims[0] && 0 <= j[1] < dims[1] && 0 <= j[2] < dims[2] && 0 <= j[3] < dims[3];
    assert j == [j[0], 0, j[2], j[3]];
    GetSlice(t, 1, ti, ti + 1, j);
    hide Slice, Size, Flat;
    assert j[1 := j[1] + ti] == [j[0], ti, j[2], j[3]];
    PatchPosition(j[0], j[2], j[3], flat, temporal, h, w, ti);
    Flat4(j[0], 0, j[2], j[3], flat, 1, h, w);
    Flat4(j[0], ti, j[2], j[3], flat, temporal, h, w);
    GetAt(Tensor(half, dims), j, (j[0] * h + j[2]) * w + j[3]);
    GetAt(t, [j[0], ti, j[2], j[3]], ((j[0] * temporal + ti) * h + j[2]) * w + j[3]);
  }

  /** ... and its split is the slice at the temporal index. */
  lemma PatchIsSlice<T>(data: seq<T>, shape: seq<nat>, channels: nat, ti: nat, half: seq<T>)
    requires channels > 0 && PatchShape(shape, channels, ti) && PatchTensor(data, shape).Valid()
    requires PatchCopied(half, data, shape[3], shape[2], shape[1], shape[0], ti, |half|)
    ensures Tensor(half, [shape[3], 1, shape[1], shape[0]]) == Slice(PatchTensor(data, shape), 1, ti, ti + 1)
  {
    var w, h, temporal, flat := shape[0], shape[1], shape[2], shape[3];
    var dims: seq<int> := [flat, 1, h, w];
    var t := PatchTensor(data, shape);
    Size3(flat, h, w);
    Size4(flat, 1, h, w);
    assert t.dims[1 := (ti + 1) - ti] == dims;
    forall j: seq<int> | InBounds(j, dims)
      ensures Get(Tensor(half, dims), j) == Get(Slice(t, 1, ti, ti + 1), j)
    {
      PatchElement(data, shape, channels, ti, half, j);
    }
    SameTensor(Tensor(half, dims), Slice(t, 1, ti, ti + 1));
  }

  /** The two temporal halves of a patch tensor, concatenated, are the patch tensor. */
  lemma PatchHalvesRebuild<T>(data: seq<T>, shape: seq<nat>, channels: nat, half0: seq<T>, half1: seq<T>)
    requires channels > 0 && PatchShape(shape, channels, 1) && shape[2] == 2 && PatchTensor(data, shape).Valid()
    requires PatchCopied(half0, data, shape[3], shape[2], shape[1], shape[0], 0, |half0|)
    requires PatchCopied(half1, data, shape[3], shape[2], shape[1], shape[0], 1, |half1|)
    ensures var dims := [shape[3], 1, shape[1], shape[0]];
      var parts := [Tensor(half0, dims), Tensor(half1, dims)];
      Compatible(parts, 1) && Concat(parts, 1) == PatchTensor(data, shape)
  {
    var t := PatchTensor(data, shape);
    PatchIsSlice(data, shape, channels, 0, half0);
    PatchIsSlice(data, shape, channels, 1, half1);
    var w: seq<int> := [1, 1];
    TwoWindows(1, 1);
    PieceIsSlice(t, 1, w, 0, 0);
    PieceIsSlice(t, 1, w, 1, 1);
    var dims := [shape[3], 1, shape[1], shape[0]];
    assert Pieces(t, 1, w) == [Tensor(half0, dims), Tensor(half1, dims)];
    ConcatOfSlices(t, 1, w);
  }

  // ----- compatmigrate/nemotron3.go

  /** The flattened patch length, when this tensor is one reshapeNemotron3PatchEmbedding handles:
      rank 2 and an embedding length given or found in the shape. */
  function PatchEmbedding(shape: seq<nat>, patch: nat, channels: nat, embedding: nat): (e: nat) {
    if |shape| != 2 || patch == 0 || channels == 0 then 0
    else if embedding != 0 then embedding
    else if shape[0] == patch * patch * channels then shape[1]
    else if shape[1] == patch * patch * channels then shape[0]
    else 0
  }

  /** Whether the reshape gives up on the data length: a handled tensor of another size. */
  predicate PatchLengthError(n: nat, shape: seq<nat>, patch: nat, channels: nat, embedding: nat) {
    && |shape| == 2 && patch > 0 && channels > 0
    && (embedding != 0 || shape[0] == patch * patch * channels || shape[1] == patch * patch * channels)
    && n != patch * patch * channels * PatchEmbedding(shape, patch, channels, embedding)
  }

  lemma SameOffset(x: nat, y: nat, c: nat, e: nat, patch: nat, channels: nat)
    ensures x + patch * (y + patch * (c + channels * e)) == (x + patch * (y + patch * c)) + patch * patch * channels * e
  {
    MulDistributes(c, channels * e, patch);
    assert patch * (c + channels * e) == patch * c + patch * (channels * e);
    assert patch * (y + patch * c + patch * (channels * e))
      == patch * (y + patch * c) + patch * (patch * (channels * e));
    MulAssociative(patch, patch, channels * e);
    MulAssociative(patch * patch, channels, e);
  }

  /** The reshape writes every element where it read it: it is the identity on data. */
  method ReshapeNemotron3PatchEmbedding<T(0)>(data: seq<T>, shape: seq<nat>, patchSize: nat, channels: nat,
                                              embedding: nat)
    returns (r: Outcome<seq<T>>)
    ensures r.Failed? <==> PatchLengthError(|data|, shape, patchSize, channels, embedding)
    ensures r.Done? ==> r.value == data
  {
    if |shape| != 2 || patchSize == 0 || channels == 0 {
      return Done(data);
    }
    var flat := patchSize * patchSize * channels;
    var embeddingLength := embedding;
    if embeddingLength == 0 {
      if shape[0] == flat {
        embeddingLength := shape[1];
      } else if shape[1] == flat {
        embeddingLength := shape[0];
      } else {
        return Done(data);
      }
    }
    if |data| != flat * embeddingLength {
      return Failed("data length does not match shape");
    }
    r := CopyPatchEmbedding(data, patchSize, channels, embeddingLength);
  }

  /** One [patch, patch] plane: the loops over y and x. */
  method CopySquare<T>(out: array<T>, data: seq<T>, patch: nat, channels: nat, embeddings: nat, emb: nat, channel: nat)
    requires emb < embeddings && channel < channels
    requires out.Length == |data| == embeddings * channels * patch * patch
    requires SamePrefix(out[..], data, (emb * channels + channel) * patch * patch)
    modifies out
    ensures SamePrefix(out[..], data, (emb * channels + channel + 1) * patch * patch)
  {
    ghost var row := emb * channels + channel;
    for y := 0 to patch
      invariant SamePrefix(out[..], data, (row * patch + y) * patch)
    {
      for x := 0 to patch
        invariant SamePrefix(out[..], data, (row * patch + y) * patch + x)
      {
        PatchOffset(x, y, channel, emb, patch, channels, embeddings);
        var flatIndex := x + patch * (y + patch * channel);
        var dst := x + patch * (y + patch * (channel + channels * emb));
        var src := flatIndex + patch * patch * channels * emb;
        out[dst] := data[src];
      }
      MulDistributes(row * patch + y, 1, patch);
    }
    MulDistributes(row, 1, patch);
  }

  method CopyPatchEmbedding<T(0)>(data: seq<T>, patchSize: nat, channels: nat, embeddingLength: nat)
    returns (r: Outcome<seq<T>>)
    requires |data| == patchSize * patchSize * channels * embeddingLength
    ensures r == Done(data)
  {
    var out := new T[|data|];
    Reversed(patchSize, channels, embeddingLength);
    for emb := 0 to embeddingLength
      invariant SamePrefix(out[..], data, emb * channels * patchSize * patchSize)
    {
      for channel := 0 to channels
        invariant SamePrefix(out[..], data, (emb * channels + channel) * patchSize * patchSize)
      {
        CopySquare(out, data, patchSize, channels, embeddingLength, emb, channel);
      }
      MulDistributes(emb, 1, channels);
    }
    assert out[..] == data;
    return Done(out[..]);
  }

  ghost predicate SamePrefix<T>(out: seq<T>, data: seq<T>, n: int) {
    0 <= n <= |out| == |data| && forall k :: 0 <= k < n ==> out[k] == data[k]
  }

  lemma Reversed(patch: nat, channels: nat, embeddings: nat)
    ensures patch * patch * channels * embeddings == embeddings * channels * patch * patch
  {
    assert patch * patch * channels == channels * patch * patch;
    MulAssociative(embeddings, channels * patch, patch);
    MulAssociative(embeddings, channels, patch);
  }

  /** Both of the reshape's positions are the row-major one. */
  lemma PatchOffset(x: nat, y: nat, c: nat, e: nat, patch: nat, channels: nat, embeddings: nat)
    requires x < patch && y < patch && c < channels && e < embeddings
    ensures 0 <= ((e * channels + c) * patch + y) * patch + x < embeddings * channels * patch * patch
    ensures x + patch * (y + patch * (c + channels * e)) == ((e * channels + c) * patch + y) * patch + x
    ensures (x + patch * (y + patch * c)) + patch * patch * channels * e == ((e * channels + c) * patch + y) * patch + x
  {
    CellInRange(e, c, embeddings, channels);
    CellInRange(e * channels + c, y, embeddings * channels, patch);
    CellInRange((e * channels + c) * patch + y, x, embeddings * channels * patch, patch);
    SameOffset(x, y, c, e, patch, channels);
  }

  /** The position-embedding layouts nemotron3PositionEmbeddingLayout recognises. */
  predicate PositionLayout(shape: seq<nat>, embedding: nat, positions: nat) {
    || (|shape| == 2 && (shape == [embedding, positions] || shape == [positions, embedding]))
    || (|shape| == 3 && (shape == [1, positions, embedding] || shape == [embedding, positions, 1]))
  }

  /** Embedding-major data is transposed to position-major; position-major data is left alone. */
  predicate PositionMajor(shape: seq<nat>, embedding: nat) {
    (|shape| == 2 && shape[0] == embedding) || (|shape| == 3 && shape[0] == 1)
  }

  ghost predicate TransposedCell<T>(out: seq<T>, data: seq<T>, embedding: nat, positions: nat, pos: nat, emb: nat) {
    && 0 <= pos * embedding + emb < |out| && 0 <= emb * positions + pos < |data|
    && out[pos * embedding + emb] == data[emb * positions + pos]
  }

  lemma TransposedElement<T>(data: seq<T>, out: seq<T>, embedding: nat, positions: nat, j: seq<int>)
    requires |data| == |out| == embedding * positions && InBounds(j, [positions, embedding])
    requires forall pos: nat, emb: nat :: pos < positions && emb < embedding ==>
      TransposedCell(out, data, embedding, positions, pos, emb)
    requires Tensor(data, [embedding, positions]).Valid() && Tensor(out, [positions, embedding]).Valid()
      && IsPermutation([1, 0], 2)
    requires PermuteDims([embedding, positions], [1, 0]) == [positions, embedding]
    ensures Get(Tensor(out, [positions, embedding]), j) == Get(Permute(Tensor(data, [embedding, positions]), [1, 0]), j)
  {
    var t := Tensor(data, [embedding, positions]);
    var dims: seq<int> := [positions, embedding];
    assert 0 <= j[0] < dims[0] && 0 <= j[1] < dims[1] && j == [j[0], j[1]];
    PermuteMeaning(t, [1, 0], [j[1], j[0]], j);
    hide Permute, PermuteDims, Size, Flat;
    Flat2(j[0], j[1], positions, embedding);
    Flat2(j[1], j[0], embedding, positions);
    assert TransposedCell(out, data, embedding, positions, j[0], j[1]);
    GetAt(Tensor(out, dims), j, j[0] * embedding + j[1]);
    GetAt(t, [j[1], j[0]], j[1] * positions + j[0]);
  }

  lemma TransposeAt<T>(data: seq<T>, out: seq<T>, embedding: nat, positions: nat)
    requires |data| == |out| == embedding * positions
    requires forall pos: nat, emb: nat :: pos < positions && emb < embedding ==>
      TransposedCell(out, data, embedding, positions, pos, emb)
    ensures Tensor(data, [embedding, positions]).Valid() && IsPermutation([1, 0], 2)
    ensures Tensor(out, [positions, embedding]) == Permute(Tensor(data, [embedding, positions]), [1, 0])
  {
    Size2(embedding, positions);
    Size2(positions, embedding);
    var t := Tensor(data, [embedding, positions]);
    var dims: seq<int> := [positions, embedding];
    assert PermuteDims(t.dims, [1, 0]) == dims;
    forall j: seq<int> | InBounds(j, dims)
      ensures Get(Tensor(out, dims), j) == Get(Permute(t, [1, 0]), j)
    {
      TransposedElement(data, out, embedding, positions, j);
    }
    SameTensor(Tensor(out, dims), Permute(t, [1, 0]));
  }

  /** Source position of result element (pos, emb). */
  function NormalizedSource(shape: seq<nat>, embedding: nat, positions: nat, pos: int, emb: int): int {
    if PositionMajor(shape, embedding) then pos * embedding + emb else emb * positions + pos
  }

  /** Result element k, for every k below n, comes from where it should. */
  ghost predicate Normalized<T>(out: seq<T>, data: seq<T>, shape: seq<nat>, embedding: nat, positions: nat, n: nat)
  {
    && n <= |out| == |data| == embedding * positions
    && forall k :: 0 <= k < n ==> NormalizedElement(out, data, shape, embedding, positions, k)
  }

  ghost predicate NormalizedElement<T>(out: seq<T>, data: seq<T>, shape: seq<nat>, embedding: nat, positions: nat,
                                       k: nat)
    requires k < |out| == |data| == embedding * positions
  {
    DivideNat(k, embedding, positions);
    var s := NormalizedSource(shape, embedding, positions, k / embedding, k % embedding);
    0 <= s < |data| && out[k] == data[s]
  }

  lemma DivideNat(k: nat, embedding: nat, positions: nat)
    requires k < embedding * positions
    ensures 0 < embedding && 0 <= k / embedding < positions && 0 <= k % embedding < embedding
    ensures k == (k / embedding) * embedding + k % embedding
  {
    MulPositive(embedding, positions);
    DivideBound(k, positions, embedding);
  }

  lemma NormalizeStep<T>(out: seq<T>, data: seq<T>, shape: seq<nat>, embedding: nat, positions: nat, pos: nat, emb: nat)
    requires pos < positions && emb < embedding
    requires Normalized(out, data, shape, embedding, positions, pos * embedding + emb)
    ensures 0 <= pos * embedding + emb < |out|
    ensures 0 <= NormalizedSource(shape, embedding, positions, pos, emb) < |data|
    ensures Normalized(out[pos * embedding + emb := data[NormalizedSource(shape, embedding, positions, pos, emb)]],
                       data, shape, embedding, positions, pos * embedding + emb + 1)
  {
    CellInRange(pos, emb, positions, embedding);
    CellInRange(emb, pos, embedding, positions);
    DivideSum(pos, embedding, emb);
    var n := pos * embedding + emb;
    var next := out[n := data[NormalizedSource(shape, embedding, positions, pos, emb)]];
    forall k | 0 <= k < n + 1 ensures NormalizedElement(next, data, shape, embedding, positions, k) {
      if k < n { assert NormalizedElement(out, data, shape, embedding, positions, k); }
    }
  }

  /** normalizeNemotron3PositionEmbeddingData: position-major output, by transposing when needed. */
  method NormalizeNemotron3PositionEmbedding<T(0)>(data: seq<T>, shape: seq<nat>, embedding: nat, positions: nat)
    returns (out: seq<T>)
    requires PositionLayout(shape, embedding, positions) && |data| == embedding * positions
    ensures (if |shape| == 2 then shape[0] == embedding else shape[0] == 1) ==> out == data
    ensures !(if |shape| == 2 then shape[0] == embedding else shape[0] == 1) ==>
      && Tensor(data, [embedding, positions]).Valid() && IsPermutation([1, 0], 2)
      && out == Permute(Tensor(data, [embedding, positions]), [1, 0]).data
  {
    if |shape| == 2 && shape[0] == embedding {
      return data;
    }
    var a := new T[embedding * positions];
    for pos := 0 to positions
      invariant Normalized(a[..], data, shape, embedding, positions, pos * embedding)
    {
      for emb := 0 to embedding
        invariant Normalized(a[..], data, shape, embedding, positions, pos * embedding + emb)
      {
        NormalizeStep(a[..], data, shape, embedding, positions, pos, emb);
        if |shape| == 2 {
          a[emb + embedding * pos] := data[pos + positions * emb];
        } else if shape[0] == 1 {
          a[emb + embedding * pos] := data[pos * embedding + emb];
        } else {
          a[emb + embedding * pos] := data[emb * positions + pos];
        }
      }
      MulDistributes(pos, 1, embedding);
    }
    out := a[..];
    if PositionMajor(shape, embedding) {
      NormalizedPlain(out, data, shape, embedding, positions);
    } else {
      NormalizedTransposed(out, data, shape, embedding, positions);
    }
  }

  lemma NormalizedPlain<T>(out: seq<T>, data: seq<T>, shape: seq<nat>, embedding: nat, positions: nat)
    requires Normalized(out, data, shape, embedding, positions, |data|) && PositionMajor(shape, embedding)
    ensures out == data
  {
    forall k | 0 <= k < |data| ensures out[k] == data[k] {
      assert NormalizedElement(out, data, shape, embedding, positions, k);
      DivideNat(k, embedding, positions);
    }
  }

  lemma NormalizedCell<T>(out: seq<T>, data: seq<T>, shape: seq<nat>, embedding: nat, positions: nat, p: nat, e: nat)
    requires Normalized(out, data, shape, embedding, positions, |data|) && !PositionMajor(shape, embedding)
    requires p < positions && e < embedding
    ensures TransposedCell(out, data, embedding, positions, p, e)
  {
    CellInRange(p, e, positions, embedding);
    CellInRange(e, p, embedding, positions);
    DivideSum(p, embedding, e);
    assert NormalizedElement(out, data, shape, embedding, positions, p * embedding + e);
  }

  lemma NormalizedTransposed<T>(out: seq<T>, data: seq<T>, shape: seq<nat>, embedding: nat, positions: nat)
    requires Normalized(out, data, shape, embedding, positions, |data|) && !PositionMajor(shape, embedding)
    ensures Tensor(data, [embedding, positions]).Valid() && IsPermutation([1, 0], 2)
    ensures out == Permute(Tensor(data, [embedding, positions]), [1, 0]).data
  {
    forall p: nat, e: nat | p < positions && e < embedding
      ensures TransposedCell(out, data, embedding, positions, p, e)
    {
      NormalizedCell(out, data, shape, embedding, positions, p, e);
    }
    TransposeAt(data, out, embedding, positions);
  }
}
