/** create/plan.go: Plan, and exactly which sources it accepts. */
module Planner {
  import opened ExpertNames
  import opened ImportPlan
  import opened ExpertGroups
  import opened ExpertStacks
  import opened ExpertPlanner
  import opened PlanSources
  import opened BlockFP8Plan
  import opened PrequantPlan
  import opened PrequantPlaces

  // ----- collisions

  function BlobNames(specs: seq<BlobSpec>): (names: seq<string>)
    ensures |names| == |specs| && forall i :: 0 <= i < |specs| ==> names[i] == specs[i].name
  {
    seq(|specs|, i requires 0 <= i < |specs| => specs[i].name)
  }

  function NamesIn(ts: seq<TensorSpec>): (names: seq<string>)
    ensures |names| == |ts| && forall i :: 0 <= i < |ts| ==> names[i] == ts[i].name
  {
    seq(|ts|, i requires 0 <= i < |ts| => ts[i].name)
  }

  /** The output tensor names of all blobs, in order. */
  function TensorNames(specs: seq<BlobSpec>): seq<string> {
    if specs == [] then [] else TensorNames(specs[..|specs| - 1]) + NamesIn(specs[|specs| - 1].tensors)
  }

  /** No two blobs and no two output tensors have one name. */
  predicate DistinctOutputs(specs: seq<BlobSpec>) {
    Once(BlobNames(specs)) && Once(TensorNames(specs))
  }

  lemma OnceSnoc(names: seq<string>, n: string)
    requires Once(names)
    ensures Once(names + [n]) <==> n !in names
  {
    var more := names + [n];
    if n in names {
      var i :| 0 <= i < |names| && names[i] == n;
      assert more[i] == more[|names|];
    }
  }

  lemma OncePrefix(a: seq<string>, b: seq<string>)
    requires Once(a + b)
    ensures Once(a)
  {
    forall i, j | 0 <= i < j < |a| ensures a[i] != a[j] { assert (a + b)[i] != (a + b)[j]; }
  }

  lemma NamesStep(specs: seq<BlobSpec>, k: nat)
    requires k < |specs|
    ensures BlobNames(specs[..k + 1]) == BlobNames(specs[..k]) + [specs[k].name]
    ensures TensorNames(specs[..k + 1]) == TensorNames(specs[..k]) + NamesIn(specs[k].tensors)
  {
    hide NamesIn;
    assert specs[..k + 1][..k] == specs[..k];
  }

  lemma {:induction false} PrefixesNotOnce(specs: seq<BlobSpec>, k: nat)
    requires k <= |specs| && DistinctOutputs(specs)
    ensures Once(BlobNames(specs[..k])) && Once(TensorNames(specs[..k]))
    decreases |specs| - k
  {
    hide Once, NamesIn;
    if k == |specs| {
      assert specs[..k] == specs;
    } else {
      PrefixesNotOnce(specs, k + 1);
      NamesStep(specs, k);
      OncePrefix(BlobNames(specs[..k]), [specs[k].name]);
      OncePrefix(TensorNames(specs[..k]), NamesIn(specs[k].tensors));
    }
  }

  /** checkOutputCollisions: it accepts exactly the plans without a clashing name. */
  method CheckOutputCollisions(specs: seq<BlobSpec>) returns (ok: bool)
    ensures ok <==> DistinctOutputs(specs)
  {
    hide NamesIn, TensorNames, BlobNames, DistinctOutputs;
    var blobs: set<string>, tensors: set<string> := {}, {};
    NoNames();
    assert specs[..0] == [];
    for k := 0 to |specs|
      invariant Once(BlobNames(specs[..k])) && Once(TensorNames(specs[..k]))
      invariant blobs == SetOf(BlobNames(specs[..k])) && tensors == SetOf(TensorNames(specs[..k]))
    {
      hide Once, SetOf;
      var spec := specs[k];
      NamesStep(specs, k);
      OnceSnoc(BlobNames(specs[..k]), spec.name);
      if spec.name in blobs {
        if DistinctOutputs(specs) { PrefixesNotOnce(specs, k + 1); }
        return false;
      }
      SetOfMore(BlobNames(specs[..k]), spec.name);
      blobs := blobs + {spec.name};
      var allNew;
      allNew, tensors := AddTensorNames(spec.tensors, TensorNames(specs[..k]), tensors);
      if !allNew {
        if DistinctOutputs(specs) { PrefixesNotOnce(specs, k + 1); }
        return false;
      }
    }
    assert specs[..|specs|] == specs;
    DistinctFrom(specs);
    return true;
  }

  lemma DistinctFrom(specs: seq<BlobSpec>)
    ensures Once(BlobNames(specs)) && Once(TensorNames(specs)) <==> DistinctOutputs(specs)
  {
    hide Once;
  }

  lemma NoNames()
    ensures BlobNames([]) == [] && TensorNames([]) == []
  {}

  lemma SetOfMore(names: seq<string>, n: string)
    ensures SetOf(names + [n]) == SetOf(names) + {n}
  {}

  method AddTensorNames(ts: seq<TensorSpec>, ghost before: seq<string>, seen: set<string>)
    returns (allNew: bool, all: set<string>)
    requires Once(before) && seen == SetOf(before)
    ensures allNew <==> Once(before + NamesIn(ts))
    ensures allNew ==> all == SetOf(before + NamesIn(ts))
  {
    all := seen;
    assert before + NamesIn(ts[..0]) == before;
    for i := 0 to |ts|
      invariant Once(before + NamesIn(ts[..i])) && all == SetOf(before + NamesIn(ts[..i]))
    {
      hide Once, SetOf;
      ghost var so := before + NamesIn(ts[..i]);
      OnceSnoc(so, ts[i].name);
      SetOfMore(so, ts[i].name);
      assert before + NamesIn(ts[..i + 1]) == so + [ts[i].name];
      if ts[i].name in all {
        ghost var rest := NamesIn(ts)[i + 1..];
        assert before + NamesIn(ts) == so + [ts[i].name] + rest;
        if Once(before + NamesIn(ts)) { OncePrefix(so + [ts[i].name], rest); }
        SetOfIn(so, ts[i].name);
        return false, all;
      }
      SetOfIn(so, ts[i].name);
      all := all + {ts[i].name};
    }
    assert ts[..|ts|] == ts;
    return true, all;
  }

  lemma SetOfIn(names: seq<string>, n: string)
    ensures n in SetOf(names) <==> n in names
  {}

  // ----- the plan

  datatype SourceKind = SourceFloat | SourcePrequantized | SourceBlockFP8 | OtherSource

  /** The tensors a plan must use: all of them, or all but the activation scales of a prequantized source. */
  ghost predicate Wanted(inv: Inventory, kind: SourceKind, n: string) {
    n in inv && (kind == SourcePrequantized ==> !IgnoredScale(inv, n))
  }

  ghost function WantedNames(inv: Inventory, kind: SourceKind): (names: set<string>)
    ensures forall n :: n in names <==> Wanted(inv, kind, n)
  {
    set n | n in inv && Wanted(inv, kind, n)
  }

  /** The sources each kind of planner accepts: all groups of experts can be stacked. */
  ghost predicate Accepts(inv: Inventory, kind: SourceKind, groupOf: string -> Option<string>) {
    match kind
    case SourceFloat => AllAccepted(inv, Experts(inv, groupOf), groupOf, NoScales)
    case SourcePrequantized => true
    case SourceBlockFP8 => FP8Accepted(inv, groupOf)
    case OtherSource => false
  }

  /** What is planned for an accepted source. */
  ghost predicate IsPlan(inv: Inventory, kind: SourceKind, quantize: string, md: map<string, string>, policy: Policy,
                         groupOf: string -> Option<string>, specs: seq<BlobSpec>)
  {
    match kind
    case SourceFloat => FloatPlan(inv, QuantizeFor(quantize, policy), groupOf, specs)
    case SourcePrequantized => OnlySpecs(inv, md, specs) && forall n :: n in inv ==> HasSpec(inv, md, n, specs)
    case SourceBlockFP8 =>
      FP8Plan(inv, groupOf, PolicyFor(policy, quantize), specs)
      && forall n :: n in inv ==> HasFP8Spec(inv, groupOf, PolicyFor(policy, quantize), n, specs)
    case OtherSource => false
  }

  /** Where a plan puts each tensor of its source, told by the tensors' names, types and shapes. */
  ghost predicate Places(inv: Inventory, kind: SourceKind, quantize: string, md: map<string, string>, policy: Policy,
                         prefixOf: string -> string, specs: seq<BlobSpec>) {
    match kind
    case SourceFloat => FloatPlaces(inv, quantize, policy, prefixOf, specs)
    case SourcePrequantized => FusedPlaces(inv, md, specs)
    case SourceBlockFP8 => FP8Places(inv, quantize, policy, prefixOf, specs)
    case OtherSource => false
  }

  /** Plan: a plan is returned exactly if the source is accepted and no two outputs of what is planned for it clash; it
      can be written, and uses every wanted tensor exactly once and nothing else. */
  method Plan(inv: Inventory, kind: SourceKind, quantize: string, md: map<string, string>, policy: Policy,
              prefixOf: string -> string)
    returns (r: Planned<seq<BlobSpec>>, ghost specs: seq<BlobSpec>)
    requires Indexed(inv)
    ensures r.Planned? <==> Accepts(inv, kind, GroupOf(prefixOf)) && DistinctOutputs(specs)
    ensures Accepts(inv, kind, GroupOf(prefixOf)) ==> IsPlan(inv, kind, quantize, md, policy, GroupOf(prefixOf), specs)
    ensures r.Planned? ==> r.value == specs && IsPlan(inv, kind, quantize, md, policy, GroupOf(prefixOf), r.value)
    ensures r.Planned? ==>
      DistinctOutputs(r.value) && AllWritable(r.value) && Covers(r.value, WantedNames(inv, kind))
      && Places(inv, kind, quantize, md, policy, prefixOf, r.value)
  {
    hide FloatPlaces, FP8Places, FusedPlaces, Covers, AllWritable, FloatPlan, FP8Plan, DistinctOutputs, IgnoredScale,
      HasFP8Spec, HasSpec, QuantizeFor, GroupOf, PolicyFor, AllAccepted, Experts, FP8Accepted, OnlySpecs;
    ghost var covered;
    covered, specs := inv.Keys, [];
    if kind == SourceFloat {
      r := PlanFloat(inv, quantize, policy, prefixOf);
    } else if kind == SourcePrequantized {
      var planned;
      planned, covered := PlanPrequantized(inv, md);
      FusedPlaced(inv, md, planned);
      r := Planned(planned);
    } else if kind == SourceBlockFP8 {
      r := PlanBlockFP8(inv, quantize, policy, prefixOf);
    } else {
      r := Failed("source kind is not yet supported");
    }
    if r.Planned? {
      specs := r.value;
      var ok := CheckOutputCollisions(r.value);
      if ok {
        BlobsDistinct(r.value);
        assert covered == WantedNames(inv, kind);
      } else {
        r := Failed("source tensors normalize to a clashing name");
      }
    }
  }

  lemma BlobsDistinct(specs: seq<BlobSpec>)
    requires DistinctOutputs(specs)
    ensures DistinctBlobs(specs)
  {
    hide TensorNames;
    forall i, j | 0 <= i < j < |specs| ensures specs[i].name != specs[j].name {
      assert BlobNames(specs)[i] != BlobNames(specs)[j];
    }
  }
}
