/** create/plan.go and create/blockfp8.go: stacking the experts of a group, slot by slot. */
module ExpertGroups {
  import opened Text
  import opened ExpertNames
  import opened ImportPlan
  import Permutations

  /** An expert's weight, and its scale if it has one. */
  datatype Expert = Expert(weight: SourceTensor, scale: Option<SourceTensor>)

  type Grid = map<string, map<nat, Expert>>

  /** Where a weight's scale is, and whose scale a tensor is: a weight belongs to itself. */
  datatype Scales = NoScales | Scales(of: SourceTensor -> Option<SourceTensor>)

  function ScaleOf(scales: Scales, t: SourceTensor): Option<SourceTensor> {
    if scales.Scales? then scales.of(t) else None
  }

  // ----- collecting the experts

  /** The expert at (p, i) is one of the tensors, and its name says so. */
  ghost predicate Sits(group: string, tensors: seq<SourceTensor>, scales: Scales, e: Expert, i: nat, p: string) {
    && e.weight in tensors && ParseExpertTensor(group, e.weight.name) == Some((i, p))
    && e.scale == ScaleOf(scales, e.weight) && (scales.Scales? ==> e.scale.Some?)
  }

  /** The tensor is at the place its name says. */
  ghost predicate Placed(group: string, grid: Grid, t: SourceTensor) {
    match ParseExpertTensor(group, t.name)
    case None => false
    case Some((i, p)) => p in grid && i in grid[p] && grid[p][i].weight == t
  }

  ghost predicate IsGrid(group: string, tensors: seq<SourceTensor>, scales: Scales, grid: Grid) {
    && (forall p :: p in grid ==> grid[p] != map[])
    && (forall p, i :: p in grid && i in grid[p] ==> Sits(group, tensors, scales, grid[p][i], i, p))
    && (forall k :: 0 <= k < |tensors| ==> Placed(group, grid, tensors[k]))
  }

  /** A tensor that can be placed: it names an expert, and has its scale if one is needed. */
  predicate Placeable(group: string, scales: Scales, t: SourceTensor) {
    ParseExpertTensor(group, t.name).Some? && (scales.Scales? ==> scales.of(t).Some?)
  }

  predicate DistinctNames(ts: seq<SourceTensor>) {
    forall i, j :: 0 <= i < j < |ts| ==> ts[i].name != ts[j].name
  }

  /** The parsing loop of both planners. */
  method CollectExperts(group: string, tensors: seq<SourceTensor>, scales: Scales) returns (r: Planned<Grid>)
    requires DistinctNames(tensors)
    ensures r.Planned? ==> IsGrid(group, tensors, scales, r.value)
    ensures r.Planned? <==> forall k :: 0 <= k < |tensors| ==> Placeable(group, scales, tensors[k])
  {
    hide ParseExpertTensor, IsGrid, DistinctNames;
    var grid: Grid := map[];
    EmptyGrid(group, tensors, scales);
    for k := 0 to |tensors|
      invariant IsGrid(group, tensors[..k], scales, grid)
      invariant forall j :: 0 <= j < k ==> Placeable(group, scales, tensors[j])
    {
      var t := tensors[k];
      var parsed := ParseExpertTensor(group, t.name);
      if parsed.None? {
        return Failed("not an expert tensor of the group");
      }
      var (idx, proj) := parsed.value;
      if scales.Scales? && scales.of(t).None? {
        return Failed("expert weight has no scale companion");
      }
      assert Placeable(group, scales, t);
      NotYetThere(group, tensors, scales, grid, k, idx, proj);
      if proj in grid && idx in grid[proj] {
        return Failed("duplicate expert index");
      }
      PlaceOne(group, tensors, scales, grid, k, idx, proj);
      grid := WithExpert(grid, proj, idx, Expert(t, ScaleOf(scales, t)));
    }
    assert tensors[..|tensors|] == tensors;
    return Planned(grid);
  }

  lemma EmptyGrid(group: string, tensors: seq<SourceTensor>, scales: Scales)
    ensures IsGrid(group, tensors[..0], scales, map[])
  {}

  /** With distinct names, no two tensors claim the same place. */
  lemma NotYetThere(group: string, tensors: seq<SourceTensor>, scales: Scales, grid: Grid, k: nat, i: nat, p: string)
    requires k < |tensors| && DistinctNames(tensors) && IsGrid(group, tensors[..k], scales, grid)
    requires ParseExpertTensor(group, tensors[k].name) == Some((i, p))
    ensures !(p in grid && i in grid[p])
  {
    hide ParseExpertTensor;
    if p in grid && i in grid[p] {
      assert Sits(group, tensors[..k], scales, grid[p][i], i, p);
      var w := grid[p][i].weight;
      var j :| 0 <= j < k && tensors[j] == w;
      ParsesExactly(group, w.name, i, p);
      ParsesExactly(group, tensors[k].name, i, p);
    }
  }

  function WithExpert(grid: Grid, p: string, i: nat, e: Expert): Grid {
    grid[p := (if p in grid then grid[p] else map[])[i := e]]
  }

  lemma StillSits(group: string, tensors: seq<SourceTensor>, scales: Scales, e: Expert, i: nat, p: string, k: nat)
    requires k < |tensors| && Sits(group, tensors[..k], scales, e, i, p)
    ensures Sits(group, tensors[..k + 1], scales, e, i, p)
  {
    assert tensors[..k + 1] == tensors[..k] + [tensors[k]];
  }

  lemma StillPlaced(group: string, grid: Grid, t: SourceTensor, p: string, i: nat, e: Expert)
    requires !(p in grid && i in grid[p])
    ensures Placed(group, grid, t) || (ParseExpertTensor(group, t.name) == Some((i, p)) && e.weight == t) ==>
      Placed(group, WithExpert(grid, p, i, e), t)
  {
    hide ParseExpertTensor;
  }

  lemma AllSit(group: string, tensors: seq<SourceTensor>, scales: Scales, grid: Grid, k: nat, i: nat, p: string,
               e: Expert)
    requires k < |tensors| && IsGrid(group, tensors[..k], scales, grid)
      && Sits(group, tensors[..k + 1], scales, e, i, p)
    ensures var more := WithExpert(grid, p, i, e);
      forall q, j :: q in more && j in more[q] ==> Sits(group, tensors[..k + 1], scales, more[q][j], j, q)
    ensures forall q :: q in WithExpert(grid, p, i, e) ==> WithExpert(grid, p, i, e)[q] != map[]
  {
    hide Sits, Placed;
    var more := WithExpert(grid, p, i, e);
    forall q, j | q in more && j in more[q] ensures Sits(group, tensors[..k + 1], scales, more[q][j], j, q) {
      if q != p || j != i { StillSits(group, tensors, scales, grid[q][j], j, q, k); }
    }
    assert i in more[p];
  }

  lemma AllPlaced(group: string, tensors: seq<SourceTensor>, scales: Scales, grid: Grid, k: nat, i: nat, p: string,
                  e: Expert)
    requires k < |tensors| && IsGrid(group, tensors[..k], scales, grid) && !(p in grid && i in grid[p])
    requires ParseExpertTensor(group, tensors[k].name) == Some((i, p)) && e.weight == tensors[k]
    ensures forall j :: 0 <= j < k + 1 ==> Placed(group, WithExpert(grid, p, i, e), tensors[j])
  {
    hide Sits, Placed, WithExpert;
    forall j | 0 <= j < k + 1 ensures Placed(group, WithExpert(grid, p, i, e), tensors[j]) {
      if j < k { assert Placed(group, grid, tensors[..k][j]); }
      StillPlaced(group, grid, tensors[j], p, i, e);
    }
  }

  lemma PlaceOne(group: string, tensors: seq<SourceTensor>, scales: Scales, grid: Grid, k: nat, i: nat, p: string)
    requires k < |tensors| && IsGrid(group, tensors[..k], scales, grid)
    requires Placeable(group, scales, tensors[k]) && ParseExpertTensor(group, tensors[k].name) == Some((i, p))
    requires !(p in grid && i in grid[p])
    ensures IsGrid(group, tensors[..k + 1], scales,
                   WithExpert(grid, p, i, Expert(tensors[k], ScaleOf(scales, tensors[k]))))
  {
    var e := Expert(tensors[k], ScaleOf(scales, tensors[k]));
    assert Sits(group, tensors[..k + 1], scales, e, i, p) by { assert tensors[..k + 1][k] == tensors[k]; }
    hide ParseExpertTensor, Sits, Placed, WithExpert;
    AllSit(group, tensors, scales, grid, k, i, p, e);
    AllPlaced(group, tensors, scales, grid, k, i, p, e);
  }

  // ----- validating the projections

  /** The indices are 0 to the number of experts. */
  ghost predicate Contiguous<T>(experts: map<nat, T>) {
    forall i :: i in experts <==> 0 <= i < |experts|
  }

  /** Every projection has the experts 0..n-1 and no others. */
  ghost predicate AllHave<T>(grid: map<string, map<nat, T>>, n: nat) {
    forall p :: p in grid ==> |grid[p]| == n && Contiguous(grid[p])
  }

  /** Pigeonhole: if 0..|m|-1 are all keys of m, they are its only keys. */
  lemma NoOtherIndex<T>(m: map<nat, T>)
    requires forall i :: 0 <= i < |m| ==> i in m
    ensures Contiguous(m)
  {
    var below := Permutations.Below(|m|);
    Permutations.BelowSize(|m|);
    var keys: set<int> := m.Keys;
    forall x | x in below ensures x in keys { assert (x as nat) in m; }
    Permutations.SubsetSize(below, keys);
    assert |m.Keys| == |m|;
    forall i | i in m ensures i < |m| { assert i in keys; }
  }

  /** validateExpertProjections: it accepts exactly the grids whose projections all cover one range 0..n-1. */
  method ValidateExpertProjections<T>(grid: map<string, map<nat, T>>) returns (r: Planned<nat>)
    ensures r.Planned? <==> exists n :: AllHave(grid, n)
    ensures r.Planned? ==> AllHave(grid, r.value)
    ensures r.Planned? && (forall p :: p in grid ==> grid[p] != map[]) && grid != map[] ==> r.value > 0
  {
    var projs := Keys(grid);
    var expected: int := -1;
    for k := 0 to |projs|
      invariant expected >= -1 && (expected == -1 <==> k == 0)
      invariant forall j :: 0 <= j < k ==> |grid[projs[j]]| == expected && Contiguous(grid[projs[j]])
    {
      var experts := grid[projs[k]];
      for index := 0 to |experts|
        invariant forall i :: 0 <= i < index ==> i in experts
      {
        if index !in experts {
          assert !Contiguous(experts);
          return Failed("missing expert index");
        }
      }
      NoOtherIndex(experts);
      if expected >= 0 && |experts| != expected {
        assert |grid[projs[0]]| == expected && projs[0] in grid && projs[k] in grid;
        return Failed("projections have different numbers of experts");
      }
      expected := |experts|;
    }
    if expected < 0 {
      assert forall p :: p !in grid;
      assert AllHave(grid, 0);
      return Planned(0);
    }
    forall p | p in grid ensures |grid[p]| == expected && Contiguous(grid[p]) {
      assert p in projs;
    }
    assert AllHave(grid, expected);
    assert projs[0] in grid;
    return Planned(expected);
  }
}
