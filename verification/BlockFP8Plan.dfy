/** create/blockfp8.go: planning block-FP8 sources. */
module BlockFP8Plan {
  import opened Text
  import opened ExpertNames
  import opened ImportPlan
  import opened ExpertGroups
  import opened ExpertStacks
  import opened ExpertPlanner
  import opened PlanSources

  // ----- FP8 weights and their scales

  function Upper(s: string): string {
    seq(|s|, i requires 0 <= i < |s| => if 'a' <= s[i] <= 'z' then (s[i] as int - 32) as char else s[i])
  }

  predicate IsE4M3(dtype: string) { Upper(dtype) == "F8_E4M3" || Upper(dtype) == "F8_E4M3FN" }

  const ScaleInvSuffix := "_scale_inv"
  const ScaleSuffix := "_scale"

  function FP8ScaleFor(inv: Inventory, weight: string): Option<string> {
    if weight + ScaleInvSuffix in inv then Some(weight + ScaleInvSuffix)
    else if weight + ScaleSuffix in inv then Some(weight + ScaleSuffix)
    else None
  }

  predicate IsFP8Weight(inv: Inventory, n: string) {
    n in inv && HasSuffix(n, WeightSuffix) && IsE4M3(inv[n].dtype) && FP8ScaleFor(inv, n).Some?
  }

  /** The weight a name would be the scale of; other names own themselves. */
  function Owner(n: string): string {
    if HasSuffix(n, ScaleInvSuffix) then TrimSuffix(n, ScaleInvSuffix)
    else if HasSuffix(n, ScaleSuffix) then TrimSuffix(n, ScaleSuffix)
    else n
  }

  lemma LastChar(s: string, p: string)
    requires HasSuffix(s, p) && p != ""
    ensures s != "" && s[|s| - 1] == p[|p| - 1]
  {}

  lemma Appended(w: string, p: string)
    ensures HasSuffix(w + p, p) && TrimSuffix(w + p, p) == w
  {}

  lemma SuffixShapes()
    ensures WeightSuffix[|WeightSuffix| - 1] == 't' && ScaleInvSuffix[|ScaleInvSuffix| - 1] == 'v'
      && ScaleSuffix[|ScaleSuffix| - 1] == 'e'
    ensures WeightSuffix != "" && ScaleInvSuffix != "" && ScaleSuffix != ""
  {
    assert WeightSuffix[6] == 't' && ScaleInvSuffix[9] == 'v' && ScaleSuffix[5] == 'e';
  }

  /** A weight owns itself and its scale, and a scale is no weight. */
  lemma WeightOwns(inv: Inventory, w: string)
    requires HasSuffix(w, WeightSuffix)
    ensures Owner(w) == w
    ensures var s := FP8ScaleFor(inv, w); s.Some? ==>
      Owner(s.value) == w && s.value != w && !HasSuffix(s.value, WeightSuffix)
  {
    SuffixShapes();
    hide WeightSuffix, ScaleInvSuffix, ScaleSuffix;
    if HasSuffix(w, ScaleInvSuffix) { LastChar(w, ScaleInvSuffix); LastChar(w, WeightSuffix); }
    if HasSuffix(w, ScaleSuffix) { LastChar(w, ScaleSuffix); LastChar(w, WeightSuffix); }
    forall p | p == ScaleInvSuffix || p == ScaleSuffix
      ensures Owner(w + p) == w && w + p != w && !HasSuffix(w + p, WeightSuffix)
    {
      Appended(w, p);
      LastChar(w + p, p);
      if HasSuffix(w + p, WeightSuffix) { LastChar(w + p, WeightSuffix); }
      if p == ScaleSuffix && HasSuffix(w + p, ScaleInvSuffix) { LastChar(w + p, ScaleInvSuffix); }
    }
  }

  /** The scale companions folded into their weights. */
  predicate Consumed(inv: Inventory, n: string) {
    IsFP8Weight(inv, Owner(n)) && FP8ScaleFor(inv, Owner(n)) == Some(n)
  }

  /** The first loop of planBlockFP8. */
  method ConsumedScales(inv: Inventory, names: seq<string>) returns (consumed: set<string>)
    requires forall n :: n in names <==> n in inv
    ensures forall n :: n in consumed <==> Consumed(inv, n)
  {
    hide HasSuffix, IsE4M3, Owner, FP8ScaleFor;
    consumed := {};
    for k := 0 to |names|
      invariant forall n :: n in consumed <==> Consumed(inv, n) && Owner(n) in names[..k]
    {
      var name := names[k];
      assert names[..k + 1] == names[..k] + [name];
      if IsFP8Weight(inv, name) {
        WeightOwns(inv, name);
        consumed := consumed + {FP8ScaleFor(inv, name).value};
      }
    }
    assert names[..|names|] == names;
  }

  // ----- where each tensor goes

  datatype Kind = Folded | Decoded | DecodedStack | PlainStack | Copied

  function KindOf(inv: Inventory, groupOf: string -> Option<string>, n: string): Kind {
    if Consumed(inv, n) then Folded
    else if IsFP8Weight(inv, n) then if groupOf(n).Some? then DecodedStack else Decoded
    else if groupOf(n).Some? then PlainStack
    else Copied
  }

  /** The tensor whose spec a tensor is used in. */
  function Carrier(inv: Inventory, n: string): string { if Consumed(inv, n) then Owner(n) else n }

  lemma CarrierFacts(inv: Inventory, groupOf: string -> Option<string>, n: string)
    requires n in inv
    ensures Carrier(inv, n) in inv && KindOf(inv, groupOf, Carrier(inv, n)) != Folded
    ensures Consumed(inv, n) ==> IsFP8Weight(inv, Carrier(inv, n)) && FP8ScaleFor(inv, Carrier(inv, n)) == Some(n)
  {
    hide HasSuffix, IsE4M3, FP8ScaleFor, Owner;
    if Consumed(inv, n) { FP8NotConsumed(inv, Owner(n)); }
  }

  /** An FP8 weight is nobody's scale. */
  lemma FP8NotConsumed(inv: Inventory, w: string)
    requires IsFP8Weight(inv, w)
    ensures !Consumed(inv, w) && Owner(w) == w
  {
    hide IsE4M3;
    WeightOwns(inv, w);
  }

  function ScaleTensor(inv: Inventory, t: SourceTensor): Option<SourceTensor> {
    match FP8ScaleFor(inv, t.name)
    case None => None
    case Some(s) => if s in inv then Some(inv[s]) else None
  }

  function FP8Scales(inv: Inventory): Scales { Scales(t => ScaleTensor(inv, t)) }

  /** The single FP8 tensor: decoded to BF16 from weight and scale. */
  function DecodeOf(inv: Inventory, n: string, quantize: string): BlobSpec
    requires IsFP8Weight(inv, n)
  {
    var s := FP8ScaleFor(inv, n).value;
    BlobSpec(n, [TensorSpec(n, [inv[n], inv[s]], DecodeFP8, quantize, "BF16", Some(inv[n].shape))], map[])
  }

  lemma DecodeCovers(inv: Inventory, n: string, quantize: string)
    requires Indexed(inv) && IsFP8Weight(inv, n)
    ensures Covers([DecodeOf(inv, n, quantize)], {n, FP8ScaleFor(inv, n).value}) && Writable(DecodeOf(inv, n, quantize))
  {
    var s := FP8ScaleFor(inv, n).value;
    var b := DecodeOf(inv, n, quantize);
    WeightOwns(inv, n);
    SourceCovers(inv[n]);
    SourceCovers(inv[s]);
    hide SourcesCover, TensorsCover, Covers, IsE4M3, HasSuffix;
    SourcesCoverConcat([inv[n]], {n}, [inv[s]], {s});
    assert [inv[n]] + [inv[s]] == b.tensors[0].sources && {n} + {s} == {n, s};
    TensorCovers(b.tensors[0], {n, s});
    BlobCovers(b, {n, s});
    assert NeedsFP8Decode(b.tensors[0].transform);
  }

  // ----- the main loop

  /** A tensor spec that copies a tensor planned so, or decodes an FP8 weight planned so with its own scale. */
  ghost predicate OneTensor(inv: Inventory, groupOf: string -> Option<string>, t: TensorSpec) {
    || (CopiesOne(inv, t) && KindOf(inv, groupOf, t.name) == Copied)
    || (t.transform == DecodeFP8 && IsFP8Weight(inv, t.name) && KindOf(inv, groupOf, t.name) == Decoded
        && t.sources == [inv[t.name], inv[FP8ScaleFor(inv, t.name).value]])
  }

  ghost predicate OneTensorEach(inv: Inventory, groupOf: string -> Option<string>, specs: seq<BlobSpec>) {
    forall b, t :: b in specs && t in b.tensors ==> OneTensor(inv, groupOf, t)
  }

  lemma OneTensorMore(inv: Inventory, groupOf: string -> Option<string>, specs: seq<BlobSpec>, b: BlobSpec)
    requires OneTensorEach(inv, groupOf, specs) && |b.tensors| == 1 && OneTensor(inv, groupOf, b.tensors[0])
    ensures OneTensorEach(inv, groupOf, specs + [b])
  {
    hide OneTensor;
  }

  lemma SingleSpecs(inv: Inventory, groupOf: string -> Option<string>, n: string, q: string)
    requires Indexed(inv) && n in inv
    ensures KindOf(inv, groupOf, n) == Copied ==>
      |CopyOf(inv[n], q).tensors| == 1 && OneTensor(inv, groupOf, CopyOf(inv[n], q).tensors[0])
    ensures IsFP8Weight(inv, n) && KindOf(inv, groupOf, n) == Decoded ==>
      |DecodeOf(inv, n, q).tensors| == 1 && OneTensor(inv, groupOf, DecodeOf(inv, n, q).tensors[0])
  {
    hide IsFP8Weight, FP8ScaleFor, KindOf;
  }

  /** Every output tensor copies one tensor, decodes one FP8 weight with its scale, or stacks experts slot by slot,
      decoded or not. */
  ghost predicate FP8Plan(inv: Inventory, groupOf: string -> Option<string>, quantizeOf: (string, seq<int>) -> string,
                          specs: seq<BlobSpec>) {
    forall b, t :: b in specs && t in b.tensors ==>
      || OneTensor(inv, groupOf, t)
      || StacksGroup(inv, OfKind(inv, groupOf, PlainStack), groupOf, NoScales, KeptAsIs, t)
      || StacksGroup(inv, OfKind(inv, groupOf, DecodedStack), groupOf, FP8Scales(inv), quantizeOf, t)
  }

  /** Tensors that are not FP8 keep their precision. */
  const KeptAsIs: (string, seq<int>) -> string := (n, shape) => ""

  lemma FP8Planned(inv: Inventory, groupOf: string -> Option<string>, quantizeOf: (string, seq<int>) -> string,
                   specs: seq<BlobSpec>, grouped: seq<BlobSpec>, decoded: seq<BlobSpec>)
    requires OneTensorEach(inv, groupOf, specs)
    requires AllStackGroups(inv, OfKind(inv, groupOf, PlainStack), groupOf, NoScales, KeptAsIs, grouped)
    requires AllStackGroups(inv, OfKind(inv, groupOf, DecodedStack), groupOf, FP8Scales(inv), quantizeOf, decoded)
    ensures FP8Plan(inv, groupOf, quantizeOf, specs + grouped + decoded)
  {
    hide OneTensor, StacksGroup, FP8Scales, KeptAsIs, OfKind;
  }

  /** The names seen so far are planned: single tensors in specs, experts in their groups, scales with their weights. */
  ghost predicate Sorted(inv: Inventory, groupOf: string -> Option<string>, seen: seq<string>, specs: seq<BlobSpec>,
                         covered: set<string>, groups: Groups, chosen: set<string>, fp8Groups: Groups,
                         fp8chosen: set<string>)
  {
    && Covers(specs, covered) && AllWritable(specs) && OneTensorEach(inv, groupOf, specs)
    && Grouped(inv, chosen, groups, groupOf) && Grouped(inv, fp8chosen, fp8Groups, groupOf)
    && (forall n :: n in covered <==>
         n in inv && Carrier(inv, n) in seen
         && Single(KindOf(inv, groupOf, Carrier(inv, n))))
    && (forall n :: n in chosen <==> n in seen && KindOf(inv, groupOf, n) == PlainStack)
    && (forall n :: n in fp8chosen <==> n in seen && KindOf(inv, groupOf, n) == DecodedStack)
  }

  predicate Single(k: Kind) { k == Decoded || k == Copied }

  lemma NothingSorted(inv: Inventory, groupOf: string -> Option<string>)
    ensures Sorted(inv, groupOf, [], [], {}, map[], {}, map[], {})
  {
    NothingCovered();
    NothingGrouped(inv, groupOf);
  }

  /** The names a single spec covers: the tensors it carries. */
  lemma SingleCovers(inv: Inventory, groupOf: string -> Option<string>, m: string, names: set<string>)
    requires m in inv && Single(KindOf(inv, groupOf, m))
    requires names == if IsFP8Weight(inv, m) then {m, FP8ScaleFor(inv, m).value} else {m}
    ensures forall n :: n in names <==> n in inv && Carrier(inv, n) == m
  {
    hide HasSuffix, IsE4M3;
    if IsFP8Weight(inv, m) { WeightOwns(inv, m); }
  }

  lemma SortSingle(inv: Inventory, groupOf: string -> Option<string>, seen: seq<string>, specs: seq<BlobSpec>,
                   covered: set<string>, groups: Groups, chosen: set<string>, fp8Groups: Groups, fp8chosen: set<string>,
                   m: string, b: BlobSpec, names: set<string>)
    requires Sorted(inv, groupOf, seen, specs, covered, groups, chosen, fp8Groups, fp8chosen)
    requires m in inv && m !in seen && Single(KindOf(inv, groupOf, m)) && Covers([b], names) && Writable(b)
    requires |b.tensors| == 1 && OneTensor(inv, groupOf, b.tensors[0])
    requires names == if IsFP8Weight(inv, m) then {m, FP8ScaleFor(inv, m).value} else {m}
    ensures Sorted(inv, groupOf, seen + [m], specs + [b], covered + names, groups, chosen, fp8Groups, fp8chosen)
  {
    hide Grouped, Covers, Writable, Carrier, KindOf, IsFP8Weight, FP8ScaleFor, OneTensorEach, OneTensor;
    OneTensorMore(inv, groupOf, specs, b);
    SingleCovers(inv, groupOf, m, names);
    CoversConcat(specs, covered, [b], names);
    assert AllWritable([b]);
    WritableConcat(specs, [b]);
  }

  lemma SortGrouped(inv: Inventory, groupOf: string -> Option<string>, seen: seq<string>, specs: seq<BlobSpec>,
                    covered: set<string>, groups: Groups, chosen: set<string>, fp8Groups: Groups,
                    fp8chosen: set<string>, m: string)
    requires Sorted(inv, groupOf, seen, specs, covered, groups, chosen, fp8Groups, fp8chosen) && Indexed(inv)
    requires m in inv && m !in seen
    ensures KindOf(inv, groupOf, m) == PlainStack ==>
      Sorted(inv, groupOf, seen + [m], specs, covered, AddTo(groups, groupOf(m).value, inv[m]), chosen + {m}, fp8Groups,
             fp8chosen)
    ensures KindOf(inv, groupOf, m) == DecodedStack ==>
      Sorted(inv, groupOf, seen + [m], specs, covered, groups, chosen, AddTo(fp8Groups, groupOf(m).value, inv[m]),
             fp8chosen + {m})
    ensures KindOf(inv, groupOf, m) == Folded ==>
      Sorted(inv, groupOf, seen + [m], specs, covered, groups, chosen, fp8Groups, fp8chosen)
  {
    hide Grouped, Covers, Writable, Carrier, IsFP8Weight, FP8ScaleFor, Consumed, AddTo, OneTensorEach;
    var kind := KindOf(inv, groupOf, m);
    if kind == PlainStack { GroupOneMore(inv, chosen, groups, groupOf, m, groupOf(m).value); }
    if kind == DecodedStack { GroupOneMore(inv, fp8chosen, fp8Groups, groupOf, m, groupOf(m).value); }
  }

  lemma FP8Owned(inv: Inventory, groupOf: string -> Option<string>, fp8chosen: set<string>)
    requires Indexed(inv) && forall n :: n in fp8chosen ==> n in inv && KindOf(inv, groupOf, n) == DecodedStack
    ensures ChosenOwned(inv, fp8chosen, FP8Scales(inv), Owner)
  {
    hide IsE4M3, Owner, HasSuffix;
    forall n | n in fp8chosen && n in inv
      ensures Owner(n) == n
      ensures var s := ScaleOf(FP8Scales(inv), inv[n]); s.Some? ==> s.value.name != n && Owner(s.value.name) == n
    {
      WeightOwns(inv, n);
    }
  }

  lemma ByKind(all: set<string>, kind: string -> Kind, single: set<string>, plain: set<string>, decoded: set<string>)
    requires forall n :: n in all ==> kind(n) != Folded
    requires forall n :: n in single <==> n in all && Single(kind(n))
    requires forall n :: n in plain <==> n in all && kind(n) == PlainStack
    requires forall n :: n in decoded <==> n in all && kind(n) == DecodedStack
    ensures single !! plain && (single + plain) !! decoded && single + plain + decoded == all
  {}

  /** Everything is used: single tensors, experts, and the scales with their weights. */
  lemma AllSorted(inv: Inventory, groupOf: string -> Option<string>, names: seq<string>, specs: seq<BlobSpec>,
                  covered: set<string>, groups: Groups, chosen: set<string>, fp8Groups: Groups, fp8chosen: set<string>)
    requires Sorted(inv, groupOf, names, specs, covered, groups, chosen, fp8Groups, fp8chosen) && Indexed(inv)
    requires (forall n :: n in names <==> n in inv) && fp8chosen <= inv.Keys
    ensures covered !! chosen && (covered + chosen) !! WithScales(inv, fp8chosen, FP8Scales(inv))
    ensures covered + chosen + WithScales(inv, fp8chosen, FP8Scales(inv)) == inv.Keys
  {
    hide Sorted, CarrierKind, Single, WithScales, FP8Scales;
    var kind := n => CarrierKind(inv, groupOf, n);
    forall n
      ensures n in inv ==> kind(n) != Folded
      ensures n in covered <==> n in inv && Single(kind(n))
      ensures n in chosen <==> n in inv && kind(n) == PlainStack
      ensures n in WithScales(inv, fp8chosen, FP8Scales(inv)) <==> n in inv && kind(n) == DecodedStack
    {
      SortedName(inv, groupOf, names, specs, covered, groups, chosen, fp8Groups, fp8chosen, n);
    }
    ByKind(inv.Keys, kind, covered, chosen, WithScales(inv, fp8chosen, FP8Scales(inv)));
  }

  /** How a tensor's carrier is planned. */
  function CarrierKind(inv: Inventory, groupOf: string -> Option<string>, n: string): Kind {
    KindOf(inv, groupOf, Carrier(inv, n))
  }

  /** Where one tensor went, once all have been seen. */
  lemma SortedName(inv: Inventory, groupOf: string -> Option<string>, names: seq<string>, specs: seq<BlobSpec>,
                   covered: set<string>, groups: Groups, chosen: set<string>, fp8Groups: Groups, fp8chosen: set<string>,
                   n: string)
    requires Sorted(inv, groupOf, names, specs, covered, groups, chosen, fp8Groups, fp8chosen) && Indexed(inv)
    requires (forall m :: m in names <==> m in inv) && fp8chosen <= inv.Keys
    ensures n in inv ==> CarrierKind(inv, groupOf, n) != Folded
    ensures n in covered <==> n in inv && Single(CarrierKind(inv, groupOf, n))
    ensures n in chosen <==> n in inv && CarrierKind(inv, groupOf, n) == PlainStack
    ensures n in WithScales(inv, fp8chosen, FP8Scales(inv)) <==>
      n in inv && CarrierKind(inv, groupOf, n) == DecodedStack
  {
    hide Grouped, Covers, AllWritable, Carrier, KindOf, Single, OneTensorEach, WithScales, FP8Scales, IsFP8Weight,
      FP8ScaleFor, Consumed;
    CarriedByStack(inv, groupOf, fp8chosen, n);
    CarriedByItself(inv, groupOf, n);
    if n in inv { CarrierFacts(inv, groupOf, n); }
  }

  lemma CarriedByItself(inv: Inventory, groupOf: string -> Option<string>, n: string)
    ensures n in inv && KindOf(inv, groupOf, n) == PlainStack <==>
      n in inv && KindOf(inv, groupOf, Carrier(inv, n)) == PlainStack
  {
    hide IsE4M3, HasSuffix, Owner, FP8ScaleFor;
  }

  lemma CarriedByStack(inv: Inventory, groupOf: string -> Option<string>, fp8chosen: set<string>, n: string)
    requires fp8chosen <= inv.Keys && Indexed(inv)
    requires forall m :: m in fp8chosen <==> m in inv && KindOf(inv, groupOf, m) == DecodedStack
    ensures n in WithScales(inv, fp8chosen, FP8Scales(inv)) <==>
      n in inv && KindOf(inv, groupOf, Carrier(inv, n)) == DecodedStack
  {
    hide IsE4M3, HasSuffix, Owner;
    var scales := FP8Scales(inv);
    if n in WithScales(inv, fp8chosen, scales) && n !in fp8chosen {
      var m :| m in fp8chosen && ScaleOf(scales, inv[m]).Some? && ScaleOf(scales, inv[m]).value.name == n;
      WeightOwns(inv, m);
    }
    if n in inv && KindOf(inv, groupOf, Carrier(inv, n)) == DecodedStack {
      var m := Carrier(inv, n);
      assert m in fp8chosen;
      if m != n { assert ScaleOf(scales, inv[m]).Some? && ScaleOf(scales, inv[m]).value.name == n; }
    }
  }

  /** A single FP8 weight is decoded and quantized as the policy says; a single tensor of another kind is copied. */
  ghost predicate HasFP8Spec(inv: Inventory, groupOf: string -> Option<string>,
                             quantizeOf: (string, seq<int>) -> string, n: string, specs: seq<BlobSpec>)
    requires n in inv
  {
    match KindOf(inv, groupOf, n)
    case Decoded => DecodeOf(inv, n, quantizeOf(n, inv[n].shape)) in specs
    case Copied => CopyOf(inv[n], "") in specs
    case _ => true
  }

  lemma HasFP8SpecMore(inv: Inventory, groupOf: string -> Option<string>, quantizeOf: (string, seq<int>) -> string,
                       seen: seq<string>, specs: seq<BlobSpec>, more: seq<BlobSpec>)
    requires forall n :: n in seen ==> n in inv && HasFP8Spec(inv, groupOf, quantizeOf, n, specs)
    ensures forall n :: n in seen ==> n in inv && HasFP8Spec(inv, groupOf, quantizeOf, n, specs + more)
  {
    hide KindOf, IsFP8Weight, CopyOf, DecodeOf;
    forall n | n in seen ensures n in inv && HasFP8Spec(inv, groupOf, quantizeOf, n, specs + more) {
      assert HasFP8Spec(inv, groupOf, quantizeOf, n, specs);
      KindFacts(inv, groupOf, n);
    }
  }

  lemma KindFacts(inv: Inventory, groupOf: string -> Option<string>, n: string)
    ensures KindOf(inv, groupOf, n) == Decoded ==> IsFP8Weight(inv, n)
  {}

  lemma HasOwnFP8Spec(inv: Inventory, groupOf: string -> Option<string>, quantizeOf: (string, seq<int>) -> string,
                      n: string, specs: seq<BlobSpec>, b: BlobSpec)
    requires n in inv
    requires match KindOf(inv, groupOf, n)
             case Decoded => IsFP8Weight(inv, n) && b == DecodeOf(inv, n, quantizeOf(n, inv[n].shape))
             case Copied => b == CopyOf(inv[n], "")
             case _ => true
    ensures HasFP8Spec(inv, groupOf, quantizeOf, n, specs + [b])
  {
    hide IsFP8Weight, CopyOf, DecodeOf, KindOf;
  }

  lemma NoOwnFP8Spec(inv: Inventory, groupOf: string -> Option<string>, quantizeOf: (string, seq<int>) -> string,
                     n: string, specs: seq<BlobSpec>)
    requires n in inv && !Single(KindOf(inv, groupOf, n))
    ensures HasFP8Spec(inv, groupOf, quantizeOf, n, specs)
  {
    hide KindOf;
  }

  /** The tensors planned in one way. */
  function OfKind(inv: Inventory, groupOf: string -> Option<string>, kind: Kind): set<string> {
    set n | n in inv && KindOf(inv, groupOf, n) == kind
  }

  /** Every group can be stacked: the plain experts of a group, and its FP8 experts with their scales. */
  ghost predicate FP8Accepted(inv: Inventory, groupOf: string -> Option<string>) {
    && AllAccepted(inv, OfKind(inv, groupOf, PlainStack), groupOf, NoScales)
    && AllAccepted(inv, OfKind(inv, groupOf, DecodedStack), groupOf, FP8Scales(inv))
  }

  /** planBlockFP8: exactly the sources whose groups can be stacked are accepted, and then every tensor is used exactly
      once and the plan can be written. */
  method PlanBlockFP8(inv: Inventory, target: string, policy: Policy, prefixOf: string -> string)
    returns (r: Planned<seq<BlobSpec>>)
    requires Indexed(inv)
    ensures r.Planned? <==> FP8Accepted(inv, GroupOf(prefixOf))
    ensures r.Planned? ==>
      Covers(r.value, inv.Keys) && AllWritable(r.value)
      && FP8Plan(inv, GroupOf(prefixOf), PolicyFor(policy, target), r.value)
    ensures r.Planned? ==> forall n :: n in inv ==>
      HasFP8Spec(inv, GroupOf(prefixOf), PolicyFor(policy, target), n, r.value)
    ensures r.Planned? ==> FP8Places(inv, target, policy, prefixOf, r.value)
  {
    hide Covers, AllWritable, Sorted, Grouped, ChosenOwned, WithScales, SlotsOf, IsE4M3, GroupOf, AddTo, Consumed,
      FP8ScaleFor, Writable, CopyOf, DecodeOf, HasSuffix, FP8Plan, OneTensor, OneTensorEach, HasFP8Spec, PolicyFor,
      FP8Accepted, FP8Places;
    var names := Keys(inv);
    var groupOf, quantizeOf := GroupOf(prefixOf), PolicyFor(policy, target);
    var consumed := ConsumedScales(inv, names);
    var groups: Groups, fp8Groups: Groups, specs: seq<BlobSpec> := map[], map[], [];
    ghost var covered: set<string>, chosen: set<string>, fp8chosen: set<string> := {}, {}, {};
    NothingSorted(inv, groupOf);
    assert names[..0] == [];
    for k := 0 to |names|
      invariant Sorted(inv, groupOf, names[..k], specs, covered, groups, chosen, fp8Groups, fp8chosen)
      invariant forall n :: n in names[..k] ==> n in inv && HasFP8Spec(inv, groupOf, quantizeOf, n, specs)
    {
      var name := names[k];
      NextName(names, k);
      SingleSpecs(inv, groupOf, name, "");
      SortGrouped(inv, groupOf, names[..k], specs, covered, groups, chosen, fp8Groups, fp8chosen, name);
      if !Single(KindOf(inv, groupOf, name)) { NoOwnFP8Spec(inv, groupOf, quantizeOf, name, specs); }
      if name !in consumed {
        var gp := groupOf(name);
        if IsFP8Weight(inv, name) {
          if gp.Some? {
            fp8Groups, fp8chosen := AddTo(fp8Groups, gp.value, inv[name]), fp8chosen + {name};
          } else {
            var blob := DecodeOf(inv, name, quantizeOf(name, inv[name].shape));
            DecodeCovers(inv, name, quantizeOf(name, inv[name].shape));
            SingleSpecs(inv, groupOf, name, quantizeOf(name, inv[name].shape));
            ghost var both := {name, FP8ScaleFor(inv, name).value};
            SortSingle(inv, groupOf, names[..k], specs, covered, groups, chosen, fp8Groups, fp8chosen, name, blob,
                       both);
            HasFP8SpecMore(inv, groupOf, quantizeOf, names[..k], specs, [blob]);
            HasOwnFP8Spec(inv, groupOf, quantizeOf, name, specs, blob);
            specs, covered := specs + [blob], covered + both;
          }
        } else if gp.Some? {
          groups, chosen := AddTo(groups, gp.value, inv[name]), chosen + {name};
        } else {
          var blob := CopyOf(inv[name], "");
          CopyCovers(inv[name], "");
          CopyWritable(inv[name], "");
          SortSingle(inv, groupOf, names[..k], specs, covered, groups, chosen, fp8Groups, fp8chosen, name, blob,
                     {name});
          HasFP8SpecMore(inv, groupOf, quantizeOf, names[..k], specs, [blob]);
          HasOwnFP8Spec(inv, groupOf, quantizeOf, name, specs, blob);
          specs, covered := specs + [blob], covered + {name};
        }
      }
    }
    assert names[..|names|] == names;
    var rest := PlanBothGroups(inv, target, policy, groupOf, names, specs, covered, groups, chosen, fp8Groups,
                               fp8chosen);
    if rest.Failed? {
      return Failed(rest.reason);
    }
    HasFP8SpecMore(inv, groupOf, quantizeOf, names, specs, rest.value);
    FP8Placed(inv, target, policy, prefixOf, specs + rest.value);
    return Planned(specs + rest.value);
  }

  lemma NextName(names: seq<string>, k: nat)
    requires k < |names| && Once(names)
    ensures names[..k + 1] == names[..k] + [names[k]] && names[k] !in names[..k]
  {}

  function PolicyFor(policy: Policy, target: string): (string, seq<int>) -> string {
    (n, shape) => policy(n, shape, target)
  }

  /** The end of planBlockFP8: the expert groups, those kept as they are and those decoded. */
  method PlanBothGroups(inv: Inventory, target: string, policy: Policy, groupOf: string -> Option<string>,
                        names: seq<string>, specs: seq<BlobSpec>, ghost covered: set<string>, groups: Groups,
                        ghost chosen: set<string>, fp8Groups: Groups, ghost fp8chosen: set<string>)
    returns (r: Planned<seq<BlobSpec>>)
    requires Sorted(inv, groupOf, names, specs, covered, groups, chosen, fp8Groups, fp8chosen) && Indexed(inv)
    requires forall n :: n in names <==> n in inv
    ensures r.Planned? <==> FP8Accepted(inv, groupOf)
    ensures r.Planned? ==>
      Covers(specs + r.value, inv.Keys) && AllWritable(specs + r.value)
        && FP8Plan(inv, groupOf, PolicyFor(policy, target), specs + r.value)
  {
    SortedFacts(inv, groupOf, names, specs, covered, groups, chosen, fp8Groups, fp8chosen);
    hide Covers, AllWritable, Sorted, Grouped, ChosenOwned, WithScales, AllStackGroups, KindOf, FP8Scales, Owner,
      FP8Plan, OneTensorEach, PolicyFor, AllAccepted, OfKind, KeptAsIs;
    NoScaleNames(inv, chosen);
    var grouped := PlanGroups(inv, groups, NoScales, KeptAsIs, chosen, groupOf, n => n);
    if grouped.Failed? {
      return Failed(grouped.reason);
    }
    FP8Owned(inv, groupOf, fp8chosen);
    var decoded := PlanGroups(inv, fp8Groups, FP8Scales(inv), PolicyFor(policy, target), fp8chosen, groupOf, Owner);
    if decoded.Failed? {
      return Failed(decoded.reason);
    }
    BothPlanned(inv, PolicyFor(policy, target), groupOf, names, specs, covered, groups, chosen, fp8Groups, fp8chosen,
                grouped.value, decoded.value);
    return Planned(grouped.value + decoded.value);
  }

  lemma BothPlanned(inv: Inventory, quantizeOf: (string, seq<int>) -> string, groupOf: string -> Option<string>,
                    names: seq<string>, specs: seq<BlobSpec>, covered: set<string>, groups: Groups, chosen: set<string>,
                    fp8Groups: Groups, fp8chosen: set<string>, grouped: seq<BlobSpec>, decoded: seq<BlobSpec>)
    requires Sorted(inv, groupOf, names, specs, covered, groups, chosen, fp8Groups, fp8chosen) && Indexed(inv)
    requires (forall n :: n in names <==> n in inv) && chosen <= inv.Keys && fp8chosen <= inv.Keys
    requires Covers(grouped, chosen) && AllWritable(grouped)
    requires Covers(decoded, WithScales(inv, fp8chosen, FP8Scales(inv))) && AllWritable(decoded)
    requires AllStackGroups(inv, chosen, groupOf, NoScales, KeptAsIs, grouped)
    requires AllStackGroups(inv, fp8chosen, groupOf, FP8Scales(inv), quantizeOf, decoded)
    ensures var all := specs + (grouped + decoded);
      Covers(all, inv.Keys) && AllWritable(all)
      && FP8Plan(inv, groupOf, quantizeOf, all)
  {
    SortedFacts(inv, groupOf, names, specs, covered, groups, chosen, fp8Groups, fp8chosen);
    hide Covers, AllWritable, Sorted, Grouped, WithScales, AllStackGroups, KindOf, FP8Scales, FP8Plan, OneTensorEach,
      KeptAsIs, OfKind;
    AllSorted(inv, groupOf, names, specs, covered, groups, chosen, fp8Groups, fp8chosen);
    CoversConcat(specs, covered, grouped, chosen);
    CoversConcat(specs + grouped, covered + chosen, decoded, WithScales(inv, fp8chosen, FP8Scales(inv)));
    WritableConcat(specs, grouped);
    WritableConcat(specs + grouped, decoded);
    FP8Planned(inv, groupOf, quantizeOf, specs, grouped, decoded);
    assert specs + grouped + decoded == specs + (grouped + decoded);
  }

  lemma SortedFacts(inv: Inventory, groupOf: string -> Option<string>, names: seq<string>, specs: seq<BlobSpec>,
                    covered: set<string>, groups: Groups, chosen: set<string>, fp8Groups: Groups,
                    fp8chosen: set<string>)
    requires Sorted(inv, groupOf, names, specs, covered, groups, chosen, fp8Groups, fp8chosen)
    requires forall n :: n in names <==> n in inv
    ensures Covers(specs, covered) && AllWritable(specs) && OneTensorEach(inv, groupOf, specs) && chosen <= inv.Keys
      && fp8chosen <= inv.Keys
    ensures Grouped(inv, chosen, groups, groupOf) && Grouped(inv, fp8chosen, fp8Groups, groupOf)
    ensures forall n :: n in fp8chosen ==> n in inv && KindOf(inv, groupOf, n) == DecodedStack
    ensures chosen == OfKind(inv, groupOf, PlainStack) && fp8chosen == OfKind(inv, groupOf, DecodedStack)
  {
    hide Covers, AllWritable, Grouped, KindOf, Carrier, OneTensorEach;
  }

  // ----- where each tensor ends up

  /** a is b, but for letters that may be small in a. */
  predicate SameLetters(a: string, b: string) {
    |a| == |b| && forall i :: 0 <= i < |a| ==>
      a[i] == b[i] || ('A' <= b[i] <= 'Z' && a[i] as int == b[i] as int + 32)
  }

  /** w is an FP8 weight and s its scale: the inverse one if there is one. */
  ghost predicate Decodes(inv: Inventory, w: string, s: string) {
    && w in inv && s in inv && HasSuffix(w, ".weight")
    && (SameLetters(inv[w].dtype, "F8_E4M3") || SameLetters(inv[w].dtype, "F8_E4M3FN"))
    && (s == w + "_scale_inv" || (s == w + "_scale" && w + "_scale_inv" !in inv))
  }

  ghost predicate IsFP8(inv: Inventory, w: string) { exists s :: Decodes(inv, w, s) }

  /** Neither an FP8 weight nor the scale of one. */
  ghost predicate NotFP8(inv: Inventory, n: string) {
    n in inv && forall w, s :: Decodes(inv, w, s) ==> n != w && n != s
  }

  /** Where each tensor of a block-FP8 source ends up. An FP8 weight is decoded with its scale and quantized as the
      policy says: in its slot of a stack, the scale in the same slot of the scales, if it is an expert's, and alone
      if its name does not go on with an integer after its group. Every other tensor keeps its precision: stacked if
      it is an expert's, and otherwise copied. */
  ghost predicate FP8Places(inv: Inventory, target: string, policy: Policy, prefixOf: string -> string,
                            specs: seq<BlobSpec>) {
    var asked: (string, seq<int>) -> string := (n, shape) => policy(n, shape, target);
    && (forall n :: Belongs(prefixOf, n) && (NotFP8(inv, n) || IsFP8(inv, n)) ==>
          exists i: nat, p :: NamesExpert(prefixOf, n, i, p))
    && (forall w, s, i: nat, p :: Decodes(inv, w, s) && NamesExpert(prefixOf, w, i, p) ==>
          InStack(specs, prefixOf(w) + "." + p + ".weight", inv[w], i, Some(inv[s]), asked))
    && (forall w, s :: Decodes(inv, w, s) && !Belongs(prefixOf, w) ==>
          Alone(specs, TensorSpec(w, [inv[w], inv[s]], DecodeFP8, asked(w, inv[w].shape), "BF16", Some(inv[w].shape))))
    && (forall n, i: nat, p :: NotFP8(inv, n) && NamesExpert(prefixOf, n, i, p) ==>
          InStack(specs, prefixOf(n) + "." + p + ".weight", inv[n], i, None, (m, shape) => ""))
    && (forall n :: NotFP8(inv, n) && !Belongs(prefixOf, n) ==>
          Alone(specs, TensorSpec(n, [inv[n]], Copy, "", "", None)))
  }

  lemma UpperLetters(a: string, b: string)
    requires forall i :: 0 <= i < |b| ==> !('a' <= b[i] <= 'z')
    ensures Upper(a) == b <==> SameLetters(a, b)
  {
    if Upper(a) == b {
      forall i | 0 <= i < |a| ensures a[i] == b[i] || ('A' <= b[i] <= 'Z' && a[i] as int == b[i] as int + 32) {
        assert Upper(a)[i] == b[i];
      }
    }
    if SameLetters(a, b) {
      forall i | 0 <= i < |a| ensures Upper(a)[i] == b[i] {}
    }
  }

  lemma E4M3Letters(dtype: string)
    ensures IsE4M3(dtype) <==> SameLetters(dtype, "F8_E4M3") || SameLetters(dtype, "F8_E4M3FN")
  {
    hide Upper, SameLetters;
    UpperLetters(dtype, "F8_E4M3");
    UpperLetters(dtype, "F8_E4M3FN");
  }

  lemma DecodesExactly(inv: Inventory, w: string, s: string)
    ensures Decodes(inv, w, s) <==> IsFP8Weight(inv, w) && FP8ScaleFor(inv, w) == Some(s)
  {
    hide SameLetters, IsE4M3, HasSuffix;
    if w in inv { E4M3Letters(inv[w].dtype); }
    Lengths(w);
  }

  lemma Lengths(w: string)
    ensures w + ScaleInvSuffix != w + ScaleSuffix
  {
    assert |w + ScaleInvSuffix| == |w| + 10 && |w + ScaleSuffix| == |w| + 6;
  }

  lemma NotFP8Exactly(inv: Inventory, n: string)
    ensures NotFP8(inv, n) <==> n in inv && !IsFP8Weight(inv, n) && !Consumed(inv, n)
  {
    hide Decodes, IsE4M3, HasSuffix, Owner, FP8ScaleFor;
    if NotFP8(inv, n) {
      if IsFP8Weight(inv, n) { DecodesExactly(inv, n, FP8ScaleFor(inv, n).value); }
      if Consumed(inv, n) { DecodesExactly(inv, Owner(n), n); }
    }
    if n in inv && !IsFP8Weight(inv, n) && !Consumed(inv, n) {
      forall w, s | Decodes(inv, w, s) ensures n != w && n != s {
        DecodesExactly(inv, w, s);
        WeightOwns(inv, w);
      }
    }
  }

  /** How a tensor is planned, by what it is. */
  lemma KindsByName(inv: Inventory, prefixOf: string -> string, n: string)
    ensures var kind := KindOf(inv, GroupOf(prefixOf), n);
      && (NotFP8(inv, n) ==> kind == if Belongs(prefixOf, n) then PlainStack else Copied)
      && (IsFP8(inv, n) ==> kind == if Belongs(prefixOf, n) then DecodedStack else Decoded)
  {
    hide Decodes, NotFP8, IsFP8Weight, Consumed, Numbered, PerExpertGroup;
    GroupedExactly(n, prefixOf);
    NotFP8Exactly(inv, n);
    if IsFP8(inv, n) {
      var s :| Decodes(inv, n, s);
      DecodesExactly(inv, n, s);
      FP8NotConsumed(inv, n);
    }
  }

  /** In the second half of a decoded stack are the scales of the weights in the first. */
  lemma ScaleHalf(inv: Inventory, groupOf: string -> Option<string>, quantizeOf: (string, seq<int>) -> string,
                  t: TensorSpec, k: nat)
    requires Indexed(inv)
    requires StacksGroup(inv, OfKind(inv, groupOf, DecodedStack), groupOf, FP8Scales(inv), quantizeOf, t)
    requires t.outShape.Some? && t.outShape.value != [] && t.outShape.value[0] <= k < |t.sources|
    ensures Consumed(inv, t.sources[k].name)
  {
    hide ExpertName, OfKind, ScaleTensor;
    var chosen := OfKind(inv, groupOf, DecodedStack);
    StackShape(inv, chosen, groupOf, FP8Scales(inv), quantizeOf, t);
    var g, p :| SlotsOf(OfGroup(inv, chosen, groupOf, g), g, p, FP8Scales(inv), quantizeOf, t);
    var count := t.outShape.value[0];
    assert SlotOf(OfGroup(inv, chosen, groupOf, g), g, p, FP8Scales(inv), t.sources, t.outShape.value[1..], t.outDtype,
                  count, k - count);
    hide OfGroup, SlotsOf, SlotOf, StacksGroup, Consumed, IsFP8Weight;
    ScaleConsumed(inv, groupOf, t.sources[k - count], t.sources[k]);
  }

  lemma ScaleConsumed(inv: Inventory, groupOf: string -> Option<string>, w: SourceTensor, s: SourceTensor)
    requires Indexed(inv) && w.name in OfKind(inv, groupOf, DecodedStack) && ScaleTensor(inv, w) == Some(s)
    ensures Consumed(inv, s.name)
  {
    hide HasSuffix, IsE4M3, Owner;
    WeightOwns(inv, w.name);
  }

  /** A name in the first half was chosen. */
  lemma WeightHalf(inv: Inventory, chosen: set<string>, groupOf: string -> Option<string>, scales: Scales,
                   quantizeOf: (string, seq<int>) -> string, t: TensorSpec, k: nat)
    requires StacksGroup(inv, chosen, groupOf, scales, quantizeOf, t)
    requires t.outShape.Some? && t.outShape.value != [] && k < t.outShape.value[0] && k < |t.sources|
    ensures t.sources[k].name in chosen
  {
    hide ExpertName;
    var g, p :| SlotsOf(OfGroup(inv, chosen, groupOf, g), g, p, scales, quantizeOf, t);
    assert SlotOf(OfGroup(inv, chosen, groupOf, g), g, p, scales, t.sources, t.outShape.value[1..], t.outDtype,
                  t.outShape.value[0], k);
  }

  /** Single tensors use tensors planned alone, and scales. */
  lemma SingleSources(inv: Inventory, groupOf: string -> Option<string>, t: TensorSpec, k: nat)
    requires Indexed(inv) && OneTensor(inv, groupOf, t) && k < |t.sources|
    ensures Single(KindOf(inv, groupOf, t.sources[k].name)) || Consumed(inv, t.sources[k].name)
  {
    hide KindOf, HasSuffix, IsE4M3, Owner;
    if CopiesOne(inv, t) && KindOf(inv, groupOf, t.name) == Copied {
      assert t.sources[k].name == t.name;
    } else {
      WeightOwns(inv, t.name);
      assert t.sources[k].name == t.name || t.sources[k].name == FP8ScaleFor(inv, t.name).value;
    }
  }

  /** The stack an expert that is no scale is in: the one of its own kind. */
  lemma ExpertsStack(inv: Inventory, groupOf: string -> Option<string>, quantizeOf: (string, seq<int>) -> string,
                     specs: seq<BlobSpec>, n: string) returns (b: BlobSpec, t: TensorSpec, k: nat)
    requires Indexed(inv) && Covers(specs, inv.Keys) && FP8Plan(inv, groupOf, quantizeOf, specs) && n in inv
    requires KindOf(inv, groupOf, n) == PlainStack || KindOf(inv, groupOf, n) == DecodedStack
    ensures b in specs && t in b.tensors && k < |t.sources| && t.sources[k].name == n
    ensures t.outShape.Some? && t.outShape.value != [] && k < t.outShape.value[0]
    ensures var kind := KindOf(inv, groupOf, n);
      StacksGroup(inv, OfKind(inv, groupOf, kind), groupOf, if kind == PlainStack then NoScales else FP8Scales(inv),
                  if kind == PlainStack then KeptAsIs else quantizeOf, t)
  {
    assert !Consumed(inv, n);
    hide StacksGroup, OneTensor, FP8Scales, KeptAsIs, IsFP8Weight, Consumed, OfKind;
    assert Uses(specs, n) == 1;
    b, t, k := UsedSomewhere(specs, n);
    if OneTensor(inv, groupOf, t) {
      SingleSources(inv, groupOf, t, k);
      assert false;
    } else if StacksGroup(inv, OfKind(inv, groupOf, PlainStack), groupOf, NoScales, KeptAsIs, t) {
      StackShape(inv, OfKind(inv, groupOf, PlainStack), groupOf, NoScales, KeptAsIs, t);
      WeightHalf(inv, OfKind(inv, groupOf, PlainStack), groupOf, NoScales, KeptAsIs, t, k);
      InKind(inv, groupOf, PlainStack, n);
    } else {
      StackShape(inv, OfKind(inv, groupOf, DecodedStack), groupOf, FP8Scales(inv), quantizeOf, t);
      if k >= t.outShape.value[0] { ScaleHalf(inv, groupOf, quantizeOf, t, k); }
      WeightHalf(inv, OfKind(inv, groupOf, DecodedStack), groupOf, FP8Scales(inv), quantizeOf, t, k);
      InKind(inv, groupOf, DecodedStack, n);
    }
  }

  lemma InKind(inv: Inventory, groupOf: string -> Option<string>, kind: Kind, n: string)
    ensures n in OfKind(inv, groupOf, kind) <==> n in inv && KindOf(inv, groupOf, n) == kind
  {
    hide KindOf;
  }

  lemma FP8ExpertInStack(inv: Inventory, quantizeOf: (string, seq<int>) -> string, prefixOf: string -> string,
                         specs: seq<BlobSpec>, n: string, i: nat, p: string, scale: Option<string>)
    requires Indexed(inv) && Covers(specs, inv.Keys) && FP8Plan(inv, GroupOf(prefixOf), quantizeOf, specs)
    requires n in inv && NamesExpert(prefixOf, n, i, p)
    requires match scale case None => NotFP8(inv, n) case Some(s) => Decodes(inv, n, s)
    ensures InStack(specs, prefixOf(n) + "." + p + ".weight", inv[n], i,
                    match scale case None => None case Some(s) => Some(inv[s]),
                    if scale.None? then KeptAsIs else quantizeOf)
  {
    var groupOf := GroupOf(prefixOf);
    NumberedExpert(prefixOf, n, i, p);
    KindsByName(inv, prefixOf, n);
    if scale.Some? { DecodesExactly(inv, n, scale.value); }
    hide NamesExpert, GroupOf, StacksGroup, InSlot, OfKind, KindOf, Decodes, NotFP8, FP8Plan, Numbered, KeptAsIs,
      IsFP8Weight, FP8ScaleFor, Covers;
    var b, t, k := ExpertsStack(inv, groupOf, quantizeOf, specs, n);
    var kind := if scale.None? then PlainStack else DecodedStack;
    var scales := if scale.None? then NoScales else FP8Scales(inv);
    var q := if scale.None? then KeptAsIs else quantizeOf;
    OwnSlot(inv, OfKind(inv, groupOf, kind), prefixOf, scales, q, t, n, k, i, p);
    StackFound(specs, b, t, prefixOf(n) + "." + p + ".weight", inv[n], i,
               match scale case None => None case Some(s) => Some(inv[s]), t.outShape.value[0], q);
  }

  lemma NumberedExpert(prefixOf: string -> string, n: string, i: nat, p: string)
    requires NamesExpert(prefixOf, n, i, p)
    ensures Belongs(prefixOf, n)
  {
    hide ExpertName, PerExpertGroup, Numbered;
    ExpertsGrouped(prefixOf(n), i, p, prefixOf);
    GroupedExactly(n, prefixOf);
  }

  lemma FP8Placed(inv: Inventory, target: string, policy: Policy, prefixOf: string -> string, specs: seq<BlobSpec>)
    requires Indexed(inv) && Covers(specs, inv.Keys) && FP8Accepted(inv, GroupOf(prefixOf))
    requires FP8Plan(inv, GroupOf(prefixOf), PolicyFor(policy, target), specs)
    requires forall n :: n in inv ==> HasFP8Spec(inv, GroupOf(prefixOf), PolicyFor(policy, target), n, specs)
    ensures FP8Places(inv, target, policy, prefixOf, specs)
  {
    hide Covers, AllAccepted, FP8Plan, NamesExpert, InStack, Numbered, Decodes, NotFP8, HasFP8Spec, Alone, GroupOf,
      KeptAsIs, PolicyFor;
    var groupOf, quantizeOf := GroupOf(prefixOf), PolicyFor(policy, target);
    var asked: (string, seq<int>) -> string := (n, shape) => policy(n, shape, target);
    AllIn(inv);
    forall n | Belongs(prefixOf, n) && (NotFP8(inv, n) || IsFP8(inv, n))
      ensures exists i: nat, p :: NamesExpert(prefixOf, n, i, p)
    {
      FP8ExpertNamed(inv, prefixOf, n);
    }
    forall w, s, i: nat, p | Decodes(inv, w, s) && NamesExpert(prefixOf, w, i, p)
      ensures InStack(specs, prefixOf(w) + "." + p + ".weight", inv[w], i, Some(inv[s]), asked)
    {
      FP8ExpertInStack(inv, quantizeOf, prefixOf, specs, w, i, p, Some(s));
      PolicyAsked(policy, target);
      SameQuantize(specs, prefixOf(w) + "." + p + ".weight", inv[w], i, Some(inv[s]), quantizeOf, asked);
    }
    forall w, s | Decodes(inv, w, s) && !Belongs(prefixOf, w)
      ensures Alone(specs, TensorSpec(w, [inv[w], inv[s]], DecodeFP8, asked(w, inv[w].shape), "BF16",
                                      Some(inv[w].shape)))
    {
      PolicyAsked(policy, target);
      DecodedAlone(inv, prefixOf, quantizeOf, specs, w, s);
    }
    forall n, i: nat, p | NotFP8(inv, n) && NamesExpert(prefixOf, n, i, p)
      ensures InStack(specs, prefixOf(n) + "." + p + ".weight", inv[n], i, None, (m, shape) => "")
    {
      NotFP8Exactly(inv, n);
      FP8ExpertInStack(inv, quantizeOf, prefixOf, specs, n, i, p, None);
      KeptSame();
      SameQuantize(specs, prefixOf(n) + "." + p + ".weight", inv[n], i, None, KeptAsIs, (m, shape) => "");
    }
    forall n | NotFP8(inv, n) && !Belongs(prefixOf, n)
      ensures Alone(specs, TensorSpec(n, [inv[n]], Copy, "", "", None))
    {
      NotFP8Exactly(inv, n);
      CopiedAlone(inv, prefixOf, quantizeOf, specs, n);
    }
  }

  lemma AllIn(inv: Inventory)
    ensures forall w, s :: Decodes(inv, w, s) ==> w in inv && s in inv
    ensures forall n :: NotFP8(inv, n) ==> n in inv
    ensures forall n :: IsFP8(inv, n) ==> n in inv
  {}

  lemma PolicyAsked(policy: Policy, target: string)
    ensures forall n, shape :: PolicyFor(policy, target)(n, shape) == policy(n, shape, target)
  {}

  lemma KeptSame()
    ensures forall n, shape :: KeptAsIs(n, shape) == ""
  {}

  lemma FP8ExpertNamed(inv: Inventory, prefixOf: string -> string, n: string)
    requires Indexed(inv) && FP8Accepted(inv, GroupOf(prefixOf)) && n in inv
    requires Belongs(prefixOf, n) && (NotFP8(inv, n) || IsFP8(inv, n))
    ensures exists i: nat, p :: NamesExpert(prefixOf, n, i, p)
  {
    hide AllAccepted, NamesExpert, Numbered, Decodes, NotFP8, KindOf, OfKind, PerExpertGroup;
    KindsByName(inv, prefixOf, n);
    GroupedExactly(n, prefixOf);
    InKind(inv, GroupOf(prefixOf), PlainStack, n);
    InKind(inv, GroupOf(prefixOf), DecodedStack, n);
    if NotFP8(inv, n) {
      AcceptedNames(inv, OfKind(inv, GroupOf(prefixOf), PlainStack), prefixOf, NoScales, n);
    } else {
      AcceptedNames(inv, OfKind(inv, GroupOf(prefixOf), DecodedStack), prefixOf, FP8Scales(inv), n);
    }
  }

  lemma DecodedAlone(inv: Inventory, prefixOf: string -> string, quantizeOf: (string, seq<int>) -> string,
                     specs: seq<BlobSpec>, w: string, s: string)
    requires Decodes(inv, w, s) && !Belongs(prefixOf, w)
    requires w in inv && HasFP8Spec(inv, GroupOf(prefixOf), quantizeOf, w, specs)
    ensures Alone(specs, TensorSpec(w, [inv[w], inv[s]], DecodeFP8, quantizeOf(w, inv[w].shape), "BF16",
                                    Some(inv[w].shape)))
  {
    hide Numbered, Decodes, KindOf, IsFP8Weight, FP8ScaleFor;
    KindsByName(inv, prefixOf, w);
    DecodesExactly(inv, w, s);
  }

  lemma CopiedAlone(inv: Inventory, prefixOf: string -> string, quantizeOf: (string, seq<int>) -> string,
                    specs: seq<BlobSpec>, n: string)
    requires NotFP8(inv, n) && !Belongs(prefixOf, n) && Indexed(inv)
    requires n in inv && HasFP8Spec(inv, GroupOf(prefixOf), quantizeOf, n, specs)
    ensures Alone(specs, TensorSpec(n, [inv[n]], Copy, "", "", None))
  {
    hide Numbered, NotFP8, KindOf;
    KindsByName(inv, prefixOf, n);
  }
}
