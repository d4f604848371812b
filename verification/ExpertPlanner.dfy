/** create/plan.go and create/blockfp8.go: planning one expert group, and exactly which groups are accepted. */
module ExpertPlanner {
  import opened ExpertNames
  import opened ImportPlan
  import opened ExpertGroups
  import opened ExpertStacks
  import Permutations

  // ----- what a group must be

  /** Some member is expert i of the projection. */
  ghost predicate Holds(group: string, members: set<SourceTensor>, i: nat, p: string) {
    exists t :: t in members && ParseExpertTensor(group, t.name) == Some((i, p))
  }

  /** The member's index is below n, and its projection has all the experts below n. */
  ghost predicate HasAll(group: string, members: set<SourceTensor>, n: nat, t: SourceTensor) {
    match ParseExpertTensor(group, t.name)
    case None => false
    case Some((i, p)) => i < n && forall k: nat :: k < n ==> Holds(group, members, k, p)
  }

  ghost predicate Complete(group: string, members: set<SourceTensor>, n: nat) {
    forall t :: t in members ==> HasAll(group, members, n, t)
  }

  predicate SameProjection(group: string, t: SourceTensor, u: SourceTensor) {
    var a, b := ParseExpertTensor(group, t.name), ParseExpertTensor(group, u.name);
    a.Some? && b.Some? && a.value.1 == b.value.1
  }

  /** Two tensors, and their scales, that can be stacked. */
  predicate Alike(scales: Scales, t: SourceTensor, u: SourceTensor) {
    var a, b := ScaleOf(scales, t), ScaleOf(scales, u);
    SameLayout(t, u) && (a.Some? && b.Some? ==> SameLayout(a.value, b.value))
  }

  ghost predicate AllAlike(group: string, members: set<SourceTensor>, scales: Scales) {
    forall t, u :: t in members && u in members && SameProjection(group, t, u) ==> Alike(scales, t, u)
  }

  /** A group that can be stacked: every member names an expert and has its scale if it needs one, every projection has
      the same experts 0..n-1, and the experts of a projection are alike. */
  ghost predicate GroupAccepted(group: string, members: set<SourceTensor>, scales: Scales) {
    && (forall t :: t in members ==> Placeable(group, scales, t))
    && (exists n :: Complete(group, members, n))
    && AllAlike(group, members, scales)
  }

  // ----- the same, of the grid

  function MembersOf(tensors: seq<SourceTensor>): set<SourceTensor> { set t | t in tensors }

  lemma GridHolds(group: string, tensors: seq<SourceTensor>, scales: Scales, grid: Grid, i: nat, p: string)
    requires IsGrid(group, tensors, scales, grid)
    ensures p in grid && i in grid[p] <==> Holds(group, MembersOf(tensors), i, p)
  {
    hide ParseExpertTensor;
    if p in grid && i in grid[p] {
      assert Sits(group, tensors, scales, grid[p][i], i, p);
      assert grid[p][i].weight in MembersOf(tensors);
    }
    if Holds(group, MembersOf(tensors), i, p) {
      var t :| t in MembersOf(tensors) && ParseExpertTensor(group, t.name) == Some((i, p));
      var k :| 0 <= k < |tensors| && tensors[k] == t;
      assert Placed(group, grid, tensors[k]);
    }
  }

  lemma GridPlace(group: string, tensors: seq<SourceTensor>, scales: Scales, grid: Grid, t: SourceTensor)
    returns (i: nat, p: string)
    requires IsGrid(group, tensors, scales, grid) && t in tensors
    ensures ParseExpertTensor(group, t.name) == Some((i, p)) && p in grid && i in grid[p] && grid[p][i].weight == t
  {
    hide ParseExpertTensor;
    var k :| 0 <= k < |tensors| && tensors[k] == t;
    assert Placed(group, grid, tensors[k]);
    i, p := ParseExpertTensor(group, t.name).value.0, ParseExpertTensor(group, t.name).value.1;
  }

  lemma IndicesCount<T>(m: map<nat, T>, n: nat)
    requires forall i: nat :: i in m <==> i < n
    ensures |m| == n
  {
    var keys: set<int> := m.Keys;
    Permutations.BelowSize(n);
    assert keys == Permutations.Below(n);
    assert |m.Keys| == |m|;
  }

  lemma CompleteGrid(group: string, tensors: seq<SourceTensor>, scales: Scales, grid: Grid, n: nat)
    requires IsGrid(group, tensors, scales, grid)
    ensures AllHave(grid, n) <==> Complete(group, MembersOf(tensors), n)
  {
    hide ParseExpertTensor, IsGrid, Holds;
    if AllHave(grid, n) {
      forall t | t in MembersOf(tensors) ensures HasAll(group, MembersOf(tensors), n, t) {
        var i, p := GridPlace(group, tensors, scales, grid, t);
        assert |grid[p]| == n && Contiguous(grid[p]);
        forall k: nat | k < n
          ensures Holds(group, MembersOf(tensors), k, p)
        {
          GridHolds(group, tensors, scales, grid, k, p);
        }
      }
    }
    if Complete(group, MembersOf(tensors), n) {
      forall p | p in grid ensures |grid[p]| == n && Contiguous(grid[p]) {
        CompleteProjection(group, tensors, scales, grid, n, p);
        IndicesCount(grid[p], n);
      }
    }
  }

  lemma SomeExpert(group: string, tensors: seq<SourceTensor>, scales: Scales, grid: Grid, p: string) returns (i: nat)
    requires IsGrid(group, tensors, scales, grid) && p in grid
    ensures i in grid[p]
  {
    hide ParseExpertTensor;
    assert grid[p] != map[];
    i :| i in grid[p];
  }

  lemma MemberAt(group: string, tensors: seq<SourceTensor>, scales: Scales, grid: Grid, i: nat, p: string)
    requires IsGrid(group, tensors, scales, grid) && p in grid && i in grid[p]
    ensures var t := grid[p][i].weight; t in MembersOf(tensors) && ParseExpertTensor(group, t.name) == Some((i, p))
    ensures grid[p][i].scale == ScaleOf(scales, grid[p][i].weight)
  {
    hide ParseExpertTensor;
    assert Sits(group, tensors, scales, grid[p][i], i, p);
  }

  lemma CompleteProjection(group: string, tensors: seq<SourceTensor>, scales: Scales, grid: Grid, n: nat, p: string)
    requires IsGrid(group, tensors, scales, grid) && Complete(group, MembersOf(tensors), n) && p in grid
    ensures forall k: nat :: k in grid[p] <==> k < n
  {
    hide ParseExpertTensor, IsGrid, Holds;
    var i := SomeExpert(group, tensors, scales, grid, p);
    MemberAt(group, tensors, scales, grid, i, p);
    assert HasAll(group, MembersOf(tensors), n, grid[p][i].weight);
    forall k: nat ensures k in grid[p] <==> k < n {
      GridHolds(group, tensors, scales, grid, k, p);
      if k in grid[p] {
        MemberAt(group, tensors, scales, grid, k, p);
        assert HasAll(group, MembersOf(tensors), n, grid[p][k].weight);
      }
    }
  }

  ghost predicate Agrees(grid: Grid, n: nat, scales: Scales, p: string) {
    p in grid && Whole(grid[p], n, scales) && LayoutsAgree(grid[p], n, scales)
  }

  lemma AlikeAgrees(group: string, tensors: seq<SourceTensor>, scales: Scales, grid: Grid, n: nat, p: string)
    requires IsGrid(group, tensors, scales, grid) && p in grid && Whole(grid[p], n, scales)
      && AllAlike(group, MembersOf(tensors), scales)
    ensures Agrees(grid, n, scales, p)
  {
    hide ParseExpertTensor, IsGrid;
    MemberAt(group, tensors, scales, grid, 0, p);
    forall i | 0 <= i < n
      ensures SameLayout(grid[p][i].weight, grid[p][0].weight)
      ensures scales.Scales? ==> SameLayout(grid[p][i].scale.value, grid[p][0].scale.value)
    {
      MemberAt(group, tensors, scales, grid, i, p);
      assert Alike(scales, grid[p][i].weight, grid[p][0].weight);
    }
  }

  lemma AgreesAlike(group: string, tensors: seq<SourceTensor>, scales: Scales, grid: Grid, n: nat)
    requires IsGrid(group, tensors, scales, grid) && forall p :: p in grid ==> Agrees(grid, n, scales, p)
    ensures AllAlike(group, MembersOf(tensors), scales)
  {
    hide ParseExpertTensor, IsGrid, Agrees, Alike;
    forall t, u | t in MembersOf(tensors) && u in MembersOf(tensors) && SameProjection(group, t, u)
      ensures Alike(scales, t, u)
    {
      var i, p := GridPlace(group, tensors, scales, grid, t);
      var j, q := GridPlace(group, tensors, scales, grid, u);
      MemberAt(group, tensors, scales, grid, i, p);
      MemberAt(group, tensors, scales, grid, j, q);
      PairAlike(grid, n, scales, p, i, j);
    }
  }

  lemma PairAlike(grid: Grid, n: nat, scales: Scales, p: string, i: nat, j: nat)
    requires Agrees(grid, n, scales, p) && i in grid[p] && j in grid[p]
    requires forall k :: k == i || k == j ==> grid[p][k].scale == ScaleOf(scales, grid[p][k].weight)
    ensures Alike(scales, grid[p][i].weight, grid[p][j].weight)
  {
    LayoutAt(grid[p], n, scales, i);
    LayoutAt(grid[p], n, scales, j);
  }

  /** The group is accepted if the grid is whole and every projection agrees ... */
  lemma GridAccepted(group: string, tensors: seq<SourceTensor>, scales: Scales, grid: Grid, n: nat)
    requires IsGrid(group, tensors, scales, grid) && AllHave(grid, n)
      && forall p :: p in grid ==> Agrees(grid, n, scales, p)
    requires forall k :: 0 <= k < |tensors| ==> Placeable(group, scales, tensors[k])
    ensures GroupAccepted(group, MembersOf(tensors), scales)
  {
    hide IsGrid, Agrees, Complete, AllAlike, Placeable, AllHave;
    CompleteGrid(group, tensors, scales, grid, n);
    AgreesAlike(group, tensors, scales, grid, n);
  }

  /** ... and refused if no count fits all projections, or one does not agree. */
  lemma NoCountRefused(group: string, tensors: seq<SourceTensor>, scales: Scales, grid: Grid)
    requires IsGrid(group, tensors, scales, grid) && !exists n :: AllHave(grid, n)
    ensures !GroupAccepted(group, MembersOf(tensors), scales)
  {
    hide IsGrid, Complete, AllAlike, Placeable, AllHave;
    forall n: nat ensures !Complete(group, MembersOf(tensors), n) { CompleteGrid(group, tensors, scales, grid, n); }
  }

  lemma LayoutsRefused(group: string, tensors: seq<SourceTensor>, scales: Scales, grid: Grid, n: nat, p: string)
    requires IsGrid(group, tensors, scales, grid) && p in grid && Whole(grid[p], n, scales)
      && !LayoutsAgree(grid[p], n, scales)
    ensures !GroupAccepted(group, MembersOf(tensors), scales)
  {
    hide IsGrid, Complete, AllAlike, Placeable, Whole, LayoutsAgree;
    if AllAlike(group, MembersOf(tensors), scales) { AlikeAgrees(group, tensors, scales, grid, n, p); }
  }

  lemma StrayRefused(group: string, tensors: seq<SourceTensor>, scales: Scales)
    ensures (forall k :: 0 <= k < |tensors| ==> Placeable(group, scales, tensors[k]))
      || !GroupAccepted(group, MembersOf(tensors), scales)
  {
    hide Complete, AllAlike, Placeable;
    if k :| 0 <= k < |tensors| && !Placeable(group, scales, tensors[k]) {
      assert tensors[k] in MembersOf(tensors);
    }
  }

  lemma StackAgrees(group: string, grid: Grid, n: nat, scales: Scales, quantizeOf: (string, seq<int>) -> string,
                    projs: seq<string>, ts: seq<TensorSpec>, names: set<string>)
    requires Stacked(group, scales, quantizeOf, grid, n, projs, ts, names) && |ts| == |projs|
      && forall p :: p in projs <==> p in grid
    ensures forall p :: p in grid ==> Agrees(grid, n, scales, p)
  {
    hide Whole, LayoutsAgree, TensorsCover, OfProjection;
    forall p | p in grid ensures Agrees(grid, n, scales, p) {
      var k :| 0 <= k < |projs| && projs[k] == p;
      assert IsStack(group, projs[k], grid[projs[k]], n, scales, quantizeOf, ts[k]);
    }
  }

  /** planExpertGroup without scales, planFP8ExpertGroup with them: exactly the groups that can be stacked are accepted,
      and then each of their tensors is used in exactly one slot, quantized as asked, and can be written. */
  method PlanExpertGroup(ghost inv: Inventory, group: string, tensors: seq<SourceTensor>, scales: Scales,
                         quantizeOf: (string, seq<int>) -> string, ghost owner: string -> string)
    returns (r: Planned<seq<BlobSpec>>)
    requires DistinctNames(tensors) && Owned(tensors, scales, owner) && FromInventory(inv, tensors)
    ensures r.Planned? <==> GroupAccepted(group, MembersOf(tensors), scales)
    ensures r.Planned? ==> Covers(r.value, AllNames(tensors, scales)) && AllWritable(r.value)
    ensures r.Planned? ==> AllSlots(inv, group, scales, quantizeOf, r.value)
  {
    hide IsGrid, Owned, Stacked, IsStack, Covers, AllWritable, AllSlots, QuantizeReady, BytesReady, SameQuantization,
      ParseExpertTensor, AllHave, TensorsCover, Whole, GroupAccepted, Placeable, FromInventory, MembersOf, Agrees,
      LayoutsAgree;
    StrayRefused(group, tensors, scales);
    var collected := CollectExperts(group, tensors, scales);
    if collected.Failed? {
      return Failed(collected.reason);
    }
    var grid := collected.value;
    var counted := ValidateExpertProjections(grid);
    if counted.Failed? {
      NoCountRefused(group, tensors, scales, grid);
      return Failed(counted.reason);
    }
    var n := counted.value;
    var projs := Keys(grid);
    var ts: seq<TensorSpec> := [];
    ghost var names: set<string> := {};
    NothingStacked(group, scales, quantizeOf, grid, n, projs);
    for k := 0 to |projs|
      invariant |ts| == k && Stacked(group, scales, quantizeOf, grid, n, projs, ts, names)
    {
      var p := projs[k];
      GridIsWhole(group, tensors, scales, grid, n, p);
      var stack := StackProjection(group, p, grid[p], n, scales, quantizeOf);
      if stack.Failed? {
        LayoutsRefused(group, tensors, scales, grid, n, p);
        return Failed(stack.reason);
      }
      StackOneMore(group, tensors, scales, owner, quantizeOf, grid, n, projs, ts, names, stack.value);
      ts, names := ts + [stack.value], names + NamesOf(stack.value.sources);
    }
    var blobs := HomogeneousExpertBlobs(group, ts);
    AllStacked(group, tensors, scales, quantizeOf, grid, n, projs, ts, names);
    StacksReady(group, scales, quantizeOf, grid, n, projs, ts, names);
    BlobsOf(group, ts, blobs, names);
    StacksHaveSlots(inv, group, tensors, scales, quantizeOf, grid, n, projs, ts, names, blobs);
    StackAgrees(group, grid, n, scales, quantizeOf, projs, ts, names);
    GridAccepted(group, tensors, scales, grid, n);
    return Planned(blobs);
  }
}
