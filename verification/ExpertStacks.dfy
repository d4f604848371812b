/** create/plan.go and create/blockfp8.go: the output tensors and blobs of an expert group. */
module ExpertStacks {
  import opened Text
  import opened ExpertNames
  import opened ImportPlan
  import opened ExpertGroups

  // ----- names of a list of sources

  function NamesOf(ts: seq<SourceTensor>): (names: set<string>)
    ensures forall n :: n in names <==> exists i :: 0 <= i < |ts| && ts[i].name == n
  {
    set i | 0 <= i < |ts| :: ts[i].name
  }

  lemma {:induction false} DistinctCover(ts: seq<SourceTensor>)
    requires DistinctNames(ts)
    ensures SourcesCover(ts, NamesOf(ts))
  {
    if ts == [] {
      NothingCovered();
    } else {
      var init, last := ts[..|ts| - 1], ts[|ts| - 1];
      DistinctCover(init);
      SourceCovers(last);
      hide SourcesCover;
      assert NamesOf(ts) == NamesOf(init) + {last.name} by { NamesSnoc(init, last); assert init + [last] == ts; }
      SourcesCoverConcat(init, NamesOf(init), [last], {last.name});
      assert init + [last] == ts;
    }
  }

  lemma NamesSnoc(ts: seq<SourceTensor>, t: SourceTensor)
    ensures NamesOf(ts + [t]) == NamesOf(ts) + {t.name}
  {
    var all := ts + [t];
    forall n ensures n in NamesOf(all) <==> n in NamesOf(ts) + {t.name} {
      if n in NamesOf(ts) {
        var i :| 0 <= i < |ts| && ts[i].name == n;
        assert all[i].name == n;
      }
      if n == t.name { assert all[|ts|].name == n; }
    }
  }

  // ----- one projection

  predicate SameLayout(a: SourceTensor, b: SourceTensor) { a.dtype == b.dtype && a.shape == b.shape }

  /** The experts 0..n-1, each with a scale if the group has scales. */
  ghost predicate Whole(experts: map<nat, Expert>, n: nat, scales: Scales) {
    && n > 0 && Contiguous(experts) && |experts| == n
    && (scales.Scales? ==> forall i :: i in experts ==> experts[i].scale.Some?)
  }

  function WeightsOf(experts: map<nat, Expert>, n: nat): (ts: seq<SourceTensor>)
    requires forall i :: 0 <= i < n ==> i in experts
    ensures |ts| == n && forall i :: 0 <= i < n ==> ts[i] == experts[i].weight
  {
    seq(n, i requires 0 <= i < n => experts[i].weight)
  }

  function ScalesOf(experts: map<nat, Expert>, n: nat): (ts: seq<SourceTensor>)
    requires forall i :: 0 <= i < n ==> i in experts && experts[i].scale.Some?
    ensures |ts| == n && forall i :: 0 <= i < n ==> ts[i] == experts[i].scale.value
  {
    seq(n, i requires 0 <= i < n => experts[i].scale.value)
  }

  function SourcesOf(experts: map<nat, Expert>, n: nat, scales: Scales): seq<SourceTensor>
    requires forall i :: 0 <= i < n ==> i in experts && (scales.Scales? ==> experts[i].scale.Some?)
  {
    WeightsOf(experts, n) + if scales.Scales? then ScalesOf(experts, n) else []
  }

  function StackedName(group: string, proj: string): string { group + "." + proj + WeightSuffix }

  ghost predicate LayoutsAgree(experts: map<nat, Expert>, n: nat, scales: Scales)
    requires Whole(experts, n, scales)
  {
    forall i :: 0 <= i < n ==> AlikeAt(experts, i, scales)
  }

  ghost predicate AlikeAt(experts: map<nat, Expert>, i: nat, scales: Scales)
    requires i in experts && 0 in experts
    requires scales.Scales? ==> experts[i].scale.Some? && experts[0].scale.Some?
  {
    && SameLayout(experts[i].weight, experts[0].weight)
    && (scales.Scales? ==> SameLayout(experts[i].scale.value, experts[0].scale.value))
  }

  /** The stacked tensor of a projection: every weight in index order, then every scale. */
  ghost predicate IsStack(group: string, proj: string, experts: map<nat, Expert>, n: nat, scales: Scales,
                          quantizeOf: (string, seq<int>) -> string, t: TensorSpec)
  {
    && Whole(experts, n, scales) && LayoutsAgree(experts, n, scales)
    && var shape := [n] + experts[0].weight.shape;
    && t == TensorSpec(StackedName(group, proj), SourcesOf(experts, n, scales),
                       if scales.Scales? then DecodeStackFP8 else StackExperts,
                       quantizeOf(StackedName(group, proj), shape), experts[0].weight.dtype, Some(shape))
  }

  lemma AllThere(experts: map<nat, Expert>, n: nat, scales: Scales)
    requires Whole(experts, n, scales)
    ensures n > 0 && forall i :: 0 <= i < n ==> i in experts && (scales.Scales? ==> experts[i].scale.Some?)
  {}

  lemma SourcesInOrder(experts: map<nat, Expert>, n: nat, scales: Scales)
    requires Whole(experts, n, scales)
    ensures SourcesOf(experts, n, scales) == WeightsOf(experts, n) + if scales.Scales? then ScalesOf(experts, n) else []
  {}

  method StackProjection(group: string, proj: string, experts: map<nat, Expert>, n: nat, scales: Scales,
                         quantizeOf: (string, seq<int>) -> string) returns (r: Planned<TensorSpec>)
    requires Whole(experts, n, scales)
    ensures r.Planned? <==> LayoutsAgree(experts, n, scales)
    ensures r.Planned? ==> IsStack(group, proj, experts, n, scales, quantizeOf, r.value)
  {
    AllThere(experts, n, scales);
    hide StackedName, Whole, SourcesOf;
    var base := experts[0];
    var sources: seq<SourceTensor>, scaleSources: seq<SourceTensor> := [], [];
    for i := 0 to n
      invariant sources == WeightsOf(experts, i) && scaleSources == if scales.Scales? then ScalesOf(experts, i) else []
      invariant forall j :: 0 <= j < i ==> AlikeAt(experts, j, scales)
    {
      var e := experts[i];
      if e.weight.dtype != base.weight.dtype || e.weight.shape != base.weight.shape {
        assert !AlikeAt(experts, i, scales);
        return Failed("mismatched weight layout");
      }
      if scales.Scales? {
        if e.scale.value.dtype != base.scale.value.dtype || e.scale.value.shape != base.scale.value.shape {
          assert !AlikeAt(experts, i, scales);
          return Failed("mismatched scale layout");
        }
        scaleSources := scaleSources + [e.scale.value];
      }
      sources := sources + [e.weight];
    }
    assert sources + scaleSources == SourcesOf(experts, n, scales) by { SourcesInOrder(experts, n, scales); }
    var name, shape := StackedName(group, proj), [n] + base.weight.shape;
    return Planned(TensorSpec(name, sources + scaleSources, if scales.Scales? then DecodeStackFP8 else StackExperts,
                              quantizeOf(name, shape), base.weight.dtype, Some(shape)));
  }

  /** A stack can be written, with or without quantization. */
  lemma StackReady(group: string, proj: string, experts: map<nat, Expert>, n: nat, scales: Scales,
                   quantizeOf: (string, seq<int>) -> string, t: TensorSpec)
    requires IsStack(group, proj, experts, n, scales, quantizeOf, t)
    ensures QuantizeReady(t) && (NeedsFP8Decode(t.transform) || BytesReady(t))
  {
    hide LayoutsAgree, SameDtype, StackedName, QuantizeReady, BytesReady;
    LayoutsGiveDtypes(experts, n, scales);
    if scales.Scales? {
      ScaledReady(t, WeightsOf(experts, n), ScalesOf(experts, n));
    } else {
      assert t.sources == WeightsOf(experts, n);
      PlainReady(t);
    }
  }

  lemma PlainReady(t: TensorSpec)
    requires t.transform == StackExperts && |t.sources| > 0 && SameDtype(t.sources)
    ensures QuantizeReady(t) && BytesReady(t)
  {
    hide SameDtype;
  }

  lemma ScaledReady(t: TensorSpec, weights: seq<SourceTensor>, scales: seq<SourceTensor>)
    requires t.transform == DecodeStackFP8 && t.sources == weights + scales && |weights| == |scales| > 0
    requires SameDtype(weights) && SameDtype(scales)
    ensures QuantizeReady(t)
  {
    hide SameDtype;
    assert t.sources[..|weights|] == weights && t.sources[|weights|..] == scales;
  }

  lemma LayoutsGiveDtypes(experts: map<nat, Expert>, n: nat, scales: Scales)
    requires Whole(experts, n, scales) && LayoutsAgree(experts, n, scales)
    ensures SameDtype(WeightsOf(experts, n)) && (scales.Scales? ==> SameDtype(ScalesOf(experts, n)))
  {
    forall i | 0 <= i < n
      ensures experts[i].weight.dtype == experts[0].weight.dtype
      ensures scales.Scales? ==> experts[i].scale.value.dtype == experts[0].scale.value.dtype
    {
      LayoutAt(experts, n, scales, i);
    }
  }

  // ----- whose tensor is whose

  /** Weights own themselves, and a scale is owned by the one weight it belongs to. */
  ghost predicate Owned(tensors: seq<SourceTensor>, scales: Scales, owner: string -> string) {
    forall t :: t in tensors ==>
      && owner(t.name) == t.name
      && (ScaleOf(scales, t).Some? ==>
            ScaleOf(scales, t).value.name != t.name && owner(ScaleOf(scales, t).value.name) == t.name)
  }

  /** The names of a group's weights and scales. */
  function AllNames(tensors: seq<SourceTensor>, scales: Scales): set<string> {
    (set t | t in tensors :: t.name)
    + (set t | t in tensors && ScaleOf(scales, t).Some? :: ScaleOf(scales, t).value.name)
  }

  /** n is the weight or the scale of one of the experts. */
  ghost predicate OfProjection(experts: map<nat, Expert>, n: string) {
    exists i :: i in experts && OfExpert(experts[i], n)
  }

  predicate OfExpert(e: Expert, n: string) {
    e.weight.name == n || (e.scale.Some? && e.scale.value.name == n)
  }

  /** The owner of an expert's tensors is the expert's weight, whose name tells expert and projection. */
  lemma OwnerTells(group: string, tensors: seq<SourceTensor>, scales: Scales, owner: string -> string, grid: Grid,
                   p: string, i: nat, n: string)
    requires IsGrid(group, tensors, scales, grid) && Owned(tensors, scales, owner)
    requires p in grid && i in grid[p] && OfExpert(grid[p][i], n)
    ensures owner(n) == grid[p][i].weight.name && ParseExpertTensor(group, owner(n)) == Some((i, p))
  {
    hide ParseExpertTensor;
    assert Sits(group, tensors, scales, grid[p][i], i, p);
  }

  lemma StackDistinct(group: string, tensors: seq<SourceTensor>, scales: Scales, owner: string -> string, grid: Grid,
                      p: string, n: nat)
    requires IsGrid(group, tensors, scales, grid) && Owned(tensors, scales, owner)
    requires p in grid && Whole(grid[p], n, scales)
    ensures DistinctNames(SourcesOf(grid[p], n, scales))
  {
    hide ParseExpertTensor, IsGrid, Owned;
    var experts := grid[p];
    var ts := SourcesOf(experts, n, scales);
    forall a, b | 0 <= a < b < |ts| ensures ts[a].name != ts[b].name {
      var i, j := if a < n then a else a - n, if b < n then b else b - n;
      assert i in experts && j in experts;
      assert OfExpert(experts[i], ts[a].name) && OfExpert(experts[j], ts[b].name);
      OwnerTells(group, tensors, scales, owner, grid, p, i, ts[a].name);
      OwnerTells(group, tensors, scales, owner, grid, p, j, ts[b].name);
      if i == j { ScaleNotWeight(group, tensors, scales, owner, grid, p, i); }
    }
  }

  lemma ScaleNotWeight(group: string, tensors: seq<SourceTensor>, scales: Scales, owner: string -> string, grid: Grid,
                       p: string, i: nat)
    requires IsGrid(group, tensors, scales, grid) && Owned(tensors, scales, owner)
    requires p in grid && i in grid[p] && grid[p][i].scale.Some?
    ensures grid[p][i].scale.value.name != grid[p][i].weight.name
  {
    assert Sits(group, tensors, scales, grid[p][i], i, p);
  }

  lemma StackNames(experts: map<nat, Expert>, n: nat, scales: Scales, m: string)
    requires Whole(experts, n, scales) && forall i :: i in experts && experts[i].scale.Some? ==> scales.Scales?
    ensures m in NamesOf(SourcesOf(experts, n, scales)) <==> OfProjection(experts, m)
  {
    hide OfProjection, NamesOf;
    if m in NamesOf(SourcesOf(experts, n, scales)) { SourceIsExperts(experts, n, scales, m); }
    if OfProjection(experts, m) { ExpertsAreSources(experts, n, scales, m); }
  }

  lemma SourceIsExperts(experts: map<nat, Expert>, n: nat, scales: Scales, m: string)
    requires Whole(experts, n, scales) && m in NamesOf(SourcesOf(experts, n, scales))
    ensures OfProjection(experts, m)
  {
    var ts := SourcesOf(experts, n, scales);
    var a :| 0 <= a < |ts| && ts[a].name == m;
    var i := if a < n then a else a - n;
    SourceAt(experts, n, scales, i);
    hide SourcesOf, Whole;
    assert OfExpert(experts[i], m);
  }

  lemma ExpertsAreSources(experts: map<nat, Expert>, n: nat, scales: Scales, m: string)
    requires Whole(experts, n, scales) && forall i :: i in experts && experts[i].scale.Some? ==> scales.Scales?
    requires OfProjection(experts, m)
    ensures m in NamesOf(SourcesOf(experts, n, scales))
  {
    var ts := SourcesOf(experts, n, scales);
    var i :| i in experts && OfExpert(experts[i], m);
    SourceAt(experts, n, scales, i);
    hide SourcesOf, Whole;
    if experts[i].weight.name == m { assert ts[i].name == m; } else { assert ts[n + i].name == m; }
  }

  lemma ScalesOnlyIfAsked(group: string, tensors: seq<SourceTensor>, scales: Scales, grid: Grid, p: string)
    requires IsGrid(group, tensors, scales, grid) && p in grid
    ensures forall i :: i in grid[p] ==> (grid[p][i].scale.Some? <==> scales.Scales?)
  {
    hide ParseExpertTensor;
    forall i | i in grid[p] ensures grid[p][i].scale.Some? <==> scales.Scales? {
      assert Sits(group, tensors, scales, grid[p][i], i, p);
    }
  }

  // ----- the whole group

  /** The first projections are stacked, and their tensors cover exactly those projections' names. */
  ghost predicate Stacked(group: string, scales: Scales, quantizeOf: (string, seq<int>) -> string, grid: Grid, n: nat,
                          projs: seq<string>, ts: seq<TensorSpec>, names: set<string>)
  {
    && |ts| <= |projs| && (forall k :: 0 <= k < |projs| ==> projs[k] in grid)
    && (forall k :: 0 <= k < |ts| ==> IsStack(group, projs[k], grid[projs[k]], n, scales, quantizeOf, ts[k]))
    && TensorsCover(ts, names)
    && (forall m :: m in names <==> exists k :: 0 <= k < |ts| && OfProjection(grid[projs[k]], m))
  }

  lemma NothingStacked(group: string, scales: Scales, quantizeOf: (string, seq<int>) -> string, grid: Grid, n: nat,
                       projs: seq<string>)
    requires forall k :: 0 <= k < |projs| ==> projs[k] in grid
    ensures Stacked(group, scales, quantizeOf, grid, n, projs, [], {})
  {
    NothingCovered();
  }

  lemma StackOneMore(group: string, tensors: seq<SourceTensor>, scales: Scales, owner: string -> string,
                     quantizeOf: (string, seq<int>) -> string, grid: Grid, n: nat, projs: seq<string>,
                     ts: seq<TensorSpec>, names: set<string>, t: TensorSpec)
    requires IsGrid(group, tensors, scales, grid) && Owned(tensors, scales, owner)
    requires Stacked(group, scales, quantizeOf, grid, n, projs, ts, names) && |ts| < |projs|
    requires forall i, j :: 0 <= i < j < |projs| ==> projs[i] != projs[j]
    requires IsStack(group, projs[|ts|], grid[projs[|ts|]], n, scales, quantizeOf, t)
    ensures Stacked(group, scales, quantizeOf, grid, n, projs, ts + [t], names + NamesOf(t.sources))
  {
    hide IsStack, TensorsCover, SourcesCover, IsGrid, Owned, OfExpert, OfProjection, ParseExpertTensor;
    var p := projs[|ts|];
    StackFacts(group, p, grid[p], n, scales, quantizeOf, t);
    StackDistinct(group, tensors, scales, owner, grid, p, n);
    DistinctCover(t.sources);
    TensorCovers(t, NamesOf(t.sources));
    forall m ensures m in NamesOf(t.sources) <==> OfProjection(grid[p], m) {
      ScalesOnlyIfAsked(group, tensors, scales, grid, p);
      StackNames(grid[p], n, scales, m);
    }
    forall m | m in names ensures m !in NamesOf(t.sources) {
      var k :| 0 <= k < |ts| && OfProjection(grid[projs[k]], m);
      if OfProjection(grid[p], m) { OneProjection(group, tensors, scales, owner, grid, projs[k], p, m); }
    }
    TensorsCoverConcat(ts, names, [t], NamesOf(t.sources));
    forall m
      ensures m in names + NamesOf(t.sources) <==> exists k :: 0 <= k < |ts + [t]| && OfProjection(grid[projs[k]], m)
    {
      if m in names {
        var k :| 0 <= k < |ts| && OfProjection(grid[projs[k]], m);
        assert 0 <= k < |ts + [t]| && OfProjection(grid[projs[k]], m);
      }
      if OfProjection(grid[p], m) { assert 0 <= |ts| < |ts + [t]| && OfProjection(grid[projs[|ts|]], m); }
    }
  }

  lemma StackFacts(group: string, proj: string, experts: map<nat, Expert>, n: nat, scales: Scales,
                   quantizeOf: (string, seq<int>) -> string, t: TensorSpec)
    requires IsStack(group, proj, experts, n, scales, quantizeOf, t)
    ensures Whole(experts, n, scales) && t.sources == SourcesOf(experts, n, scales)
  {}

  /** A tensor belongs to one projection only. */
  lemma OneProjection(group: string, tensors: seq<SourceTensor>, scales: Scales, owner: string -> string, grid: Grid,
                      p: string, q: string, m: string)
    requires IsGrid(group, tensors, scales, grid) && Owned(tensors, scales, owner) && p in grid && q in grid
    requires OfProjection(grid[p], m) && OfProjection(grid[q], m)
    ensures p == q
  {
    hide IsGrid, Owned, ParseExpertTensor, OfExpert;
    var i :| i in grid[p] && OfExpert(grid[p][i], m);
    var j :| j in grid[q] && OfExpert(grid[q][j], m);
    OwnerTells(group, tensors, scales, owner, grid, p, i, m);
    OwnerTells(group, tensors, scales, owner, grid, q, j, m);
  }

  /** With every projection stacked, every tensor of the group is used. */
  lemma AllStacked(group: string, tensors: seq<SourceTensor>, scales: Scales, quantizeOf: (string, seq<int>) -> string,
                   grid: Grid, n: nat, projs: seq<string>, ts: seq<TensorSpec>, names: set<string>)
    requires IsGrid(group, tensors, scales, grid) && (forall p :: p in projs <==> p in grid)
    requires Stacked(group, scales, quantizeOf, grid, n, projs, ts, names) && |ts| == |projs|
    ensures names == AllNames(tensors, scales)
  {
    hide IsGrid, Stacked, AllNames, OfProjection;
    forall m ensures m in names <==> m in AllNames(tensors, scales) {
      StackedNames(group, scales, quantizeOf, grid, n, projs, ts, names, m);
      if k: nat :| k < |projs| && projs[k] in grid && OfProjection(grid[projs[k]], m) {
        ProjectionNames(group, tensors, scales, grid, projs[k], m);
      }
      if m in AllNames(tensors, scales) {
        var p := NameHasProjection(group, tensors, scales, grid, m);
        var k: nat :| k < |projs| && projs[k] == p;
        assert k < |projs| && projs[k] in grid && OfProjection(grid[projs[k]], m);
      }
    }
  }

  lemma StackedNames(group: string, scales: Scales, quantizeOf: (string, seq<int>) -> string, grid: Grid, n: nat,
                     projs: seq<string>, ts: seq<TensorSpec>, names: set<string>, m: string)
    requires Stacked(group, scales, quantizeOf, grid, n, projs, ts, names) && |ts| == |projs|
    ensures m in names <==> exists k: nat :: k < |projs| && projs[k] in grid && OfProjection(grid[projs[k]], m)
  {
    hide IsStack, TensorsCover, OfProjection;
  }

  /** The tensors of a projection are the group's ... */
  lemma ProjectionNames(group: string, tensors: seq<SourceTensor>, scales: Scales, grid: Grid, p: string, m: string)
    requires IsGrid(group, tensors, scales, grid) && p in grid && OfProjection(grid[p], m)
    ensures m in AllNames(tensors, scales)
  {
    hide ParseExpertTensor;
    var i :| i in grid[p] && OfExpert(grid[p][i], m);
    assert Sits(group, tensors, scales, grid[p][i], i, p);
  }

  /** ... and each of the group's is in some projection. */
  lemma NameHasProjection(group: string, tensors: seq<SourceTensor>, scales: Scales, grid: Grid, m: string)
    returns (p: string)
    requires IsGrid(group, tensors, scales, grid) && m in AllNames(tensors, scales)
    ensures p in grid && OfProjection(grid[p], m)
  {
    hide ParseExpertTensor;
    var t :| t in tensors && (t.name == m || (ScaleOf(scales, t).Some? && ScaleOf(scales, t).value.name == m));
    var j :| 0 <= j < |tensors| && tensors[j] == t;
    assert Placed(group, grid, tensors[j]);
    var i := ParseExpertTensor(group, t.name).value.0;
    p := ParseExpertTensor(group, t.name).value.1;
    assert Sits(group, tensors, scales, grid[p][i], i, p);
    assert OfExpert(grid[p][i], m);
  }

  /** Slot i of a stack of n: the source's own tensor of expert i, with the stack's layout, and with scales the i-th
      scale after the weights is that weight's own, all scales being of one layout. */
  ghost predicate SlotOf(inv: Inventory, group: string, proj: string, scales: Scales, sources: seq<SourceTensor>,
                         shape: seq<int>, dtype: string, n: nat, i: nat) {
    && |sources| == (if scales.Scales? then 2 * n else n) && i < n
    && sources[i].name == ExpertName(group, i, proj) && sources[i].name in inv && inv[sources[i].name] == sources[i]
    && sources[i].shape == shape && sources[i].dtype == dtype
    && (scales.Scales? ==> scales.of(sources[i]) == Some(sources[n + i]) && SameLayout(sources[n + i], sources[n]))
  }

  /** t stacks a projection of the group, quantized as asked: the slots of its first dimension are the experts in
      order. */
  ghost predicate SlotsOf(inv: Inventory, group: string, proj: string, scales: Scales,
                          quantizeOf: (string, seq<int>) -> string, t: TensorSpec) {
    && t.name == StackedName(group, proj) && t.outShape.Some? && t.outShape.value != [] && t.outShape.value[0] > 0
    && t.transform == (if scales.Scales? then DecodeStackFP8 else StackExperts)
      && t.quantize == quantizeOf(t.name, t.outShape.value)
    && forall i :: 0 <= i < t.outShape.value[0] ==>
         SlotOf(inv, group, proj, scales, t.sources, t.outShape.value[1..], t.outDtype, t.outShape.value[0], i)
  }

  lemma SourceAt(experts: map<nat, Expert>, n: nat, scales: Scales, i: nat)
    requires Whole(experts, n, scales) && i < n
    ensures i in experts && 0 in experts
    ensures var ts := SourcesOf(experts, n, scales);
      && |ts| == (if scales.Scales? then 2 * n else n) && ts[i] == experts[i].weight
      && (scales.Scales? ==> experts[i].scale.Some? && ts[n + i] == experts[i].scale.value)
  {}

  /** The tensors are those the source lists under their names. */
  predicate FromInventory(inv: Inventory, tensors: seq<SourceTensor>) {
    forall k :: 0 <= k < |tensors| ==> tensors[k].name in inv && inv[tensors[k].name] == tensors[k]
  }

  lemma ExpertAt(inv: Inventory, group: string, tensors: seq<SourceTensor>, scales: Scales, grid: Grid, p: string,
                 i: nat)
    requires IsGrid(group, tensors, scales, grid) && FromInventory(inv, tensors) && p in grid && i in grid[p]
    ensures grid[p][i].weight.name == ExpertName(group, i, p) && grid[p][i].scale == ScaleOf(scales, grid[p][i].weight)
    ensures grid[p][i].weight.name in inv && inv[grid[p][i].weight.name] == grid[p][i].weight
  {
    hide ParseExpertTensor, ExpertName;
    assert Sits(group, tensors, scales, grid[p][i], i, p);
    ParsesExactly(group, grid[p][i].weight.name, i, p);
  }

  lemma StackSlots(inv: Inventory, group: string, tensors: seq<SourceTensor>, scales: Scales,
                   quantizeOf: (string, seq<int>) -> string, grid: Grid, p: string, n: nat, t: TensorSpec)
    requires IsGrid(group, tensors, scales, grid) && FromInventory(inv, tensors) && p in grid
    requires IsStack(group, p, grid[p], n, scales, quantizeOf, t)
    ensures SlotsOf(inv, group, p, scales, quantizeOf, t)
  {
    hide ExpertName, IsGrid, Whole, SourcesOf, FromInventory;
    assert n > 0 by { AllThere(grid[p], n, scales); }
    SourceAt(grid[p], n, scales, 0);
    assert t.outShape.value[1..] == grid[p][0].weight.shape && t.outShape.value[0] == n;
    forall i | 0 <= i < n ensures SlotOf(inv, group, p, scales, t.sources, t.outShape.value[1..], t.outDtype, n, i) {
      SourceAt(grid[p], n, scales, i);
      ExpertAt(inv, group, tensors, scales, grid, p, i);
      LayoutAt(grid[p], n, scales, i);
    }
  }

  lemma LayoutAt(experts: map<nat, Expert>, n: nat, scales: Scales, i: nat)
    requires Whole(experts, n, scales) && LayoutsAgree(experts, n, scales) && i < n
    ensures i in experts && 0 in experts && SameLayout(experts[i].weight, experts[0].weight)
    ensures scales.Scales? ==> SameLayout(experts[i].scale.value, experts[0].scale.value)
  {
    assert AlikeAt(experts, i, scales);
  }

  /** homogeneousExpertBlobs: one blob under the group's name if all tensors are quantized alike, else a blob each. */
  method HomogeneousExpertBlobs(group: string, ts: seq<TensorSpec>) returns (blobs: seq<BlobSpec>)
    ensures ts == [] ==> blobs == []
    ensures ts != [] && SameQuantization(ts) ==> blobs == [BlobSpec(group, ts, map[])]
    ensures !SameQuantization(ts) ==>
      |blobs| == |ts| && forall i :: 0 <= i < |ts| ==> blobs[i] == BlobSpec(ts[i].name, [ts[i]], map[])
  {
    if |ts| == 0 {
      return [];
    }
    var quantize := ts[0].quantize;
    for k := 1 to |ts|
      invariant forall i :: 0 <= i < k ==> ts[i].quantize == quantize
    {
      if ts[k].quantize != quantize {
        blobs := [];
        for i := 0 to |ts|
          invariant |blobs| == i && forall j :: 0 <= j < i ==> blobs[j] == BlobSpec(ts[j].name, [ts[j]], map[])
        {
          blobs := blobs + [BlobSpec(ts[i].name, [ts[i]], map[])];
        }
        return;
      }
    }
    return [BlobSpec(group, ts, map[])];
  }

  /** However the tensors are shared out, the blobs use the same sources and can be written. */
  lemma BlobsOf(group: string, ts: seq<TensorSpec>, blobs: seq<BlobSpec>, names: set<string>)
    requires TensorsCover(ts, names)
    requires forall i :: 0 <= i < |ts| ==>
      QuantizeReady(ts[i])
      && (NeedsFP8Decode(ts[i].transform) || BytesReady(ts[i]))
    requires ts == [] ==> blobs == []
    requires ts != [] && SameQuantization(ts) ==> blobs == [BlobSpec(group, ts, map[])]
    requires !SameQuantization(ts) ==>
      |blobs| == |ts| && forall i :: 0 <= i < |ts| ==> blobs[i] == BlobSpec(ts[i].name, [ts[i]], map[])
    ensures Covers(blobs, names) && AllWritable(blobs)
    ensures forall b, t :: b in blobs && t in b.tensors ==> t in ts
  {
    hide QuantizeReady, BytesReady, TensorsCover, Covers;
    if ts == [] {
      OneBlobEach(ts, blobs, names);
    } else if SameQuantization(ts) {
      BlobCovers(blobs[0], names);
      StacksWritable(blobs[0]);
    } else {
      OneBlobEach(ts, blobs, names);
      forall i | 0 <= i < |blobs| ensures Writable(blobs[i]) { StacksWritable(blobs[i]); }
    }
  }

  lemma StacksWritable(b: BlobSpec)
    requires SameQuantization(b.tensors)
    requires forall i :: 0 <= i < |b.tensors| ==>
      QuantizeReady(b.tensors[i]) && (NeedsFP8Decode(b.tensors[i].transform) || BytesReady(b.tensors[i]))
    ensures Writable(b)
  {
    hide QuantizeReady, BytesReady;
  }

  /** Every tensor of the blobs stacks a projection of the group. */
  ghost predicate AllSlots(inv: Inventory, group: string, scales: Scales, quantizeOf: (string, seq<int>) -> string,
                           blobs: seq<BlobSpec>) {
    forall b, t :: b in blobs && t in b.tensors ==> exists p :: SlotsOf(inv, group, p, scales, quantizeOf, t)
  }

  lemma GridIsWhole(group: string, tensors: seq<SourceTensor>, scales: Scales, grid: Grid, n: nat, p: string)
    requires IsGrid(group, tensors, scales, grid) && AllHave(grid, n) && p in grid
    ensures Whole(grid[p], n, scales)
  {
    hide ParseExpertTensor;
    ScalesOnlyIfAsked(group, tensors, scales, grid, p);
    assert grid[p] != map[];
    var i :| i in grid[p];
    assert 0 <= i < n;
  }

  lemma StacksReady(group: string, scales: Scales, quantizeOf: (string, seq<int>) -> string, grid: Grid, n: nat,
                    projs: seq<string>, ts: seq<TensorSpec>, names: set<string>)
    requires Stacked(group, scales, quantizeOf, grid, n, projs, ts, names)
    ensures TensorsCover(ts, names)
    ensures forall i :: 0 <= i < |ts| ==> QuantizeReady(ts[i]) && (NeedsFP8Decode(ts[i].transform) || BytesReady(ts[i]))
  {
    hide IsStack, QuantizeReady, BytesReady, TensorsCover, OfProjection;
    forall k | 0 <= k < |ts| ensures QuantizeReady(ts[k]) && (NeedsFP8Decode(ts[k].transform) || BytesReady(ts[k])) {
      StackReady(group, projs[k], grid[projs[k]], n, scales, quantizeOf, ts[k]);
    }
  }

  lemma StacksHaveSlots(inv: Inventory, group: string, tensors: seq<SourceTensor>, scales: Scales,
                        quantizeOf: (string, seq<int>) -> string, grid: Grid, n: nat, projs: seq<string>,
                        ts: seq<TensorSpec>, names: set<string>, blobs: seq<BlobSpec>)
    requires IsGrid(group, tensors, scales, grid) && Stacked(group, scales, quantizeOf, grid, n, projs, ts, names)
    requires FromInventory(inv, tensors)
    requires forall b, t :: b in blobs && t in b.tensors ==> t in ts
    ensures AllSlots(inv, group, scales, quantizeOf, blobs)
  {
    hide IsStack, IsGrid, SlotsOf, TensorsCover, OfProjection, FromInventory;
    forall b, t | b in blobs && t in b.tensors ensures exists p :: SlotsOf(inv, group, p, scales, quantizeOf, t) {
      assert t in ts;
      var k :| 0 <= k < |ts| && ts[k] == t;
      StackSlots(inv, group, tensors, scales, quantizeOf, grid, projs[k], n, t);
    }
  }
}
