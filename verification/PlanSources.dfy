/** create/plan.go and create/blockfp8.go: planning float and block-FP8 sources. */
module PlanSources {
  import opened ExpertNames
  import opened ImportPlan
  import opened ExpertGroups
  import opened ExpertStacks
  import opened ExpertPlanner

  type Groups = map<string, seq<SourceTensor>>

  // ----- groups of tensors

  /** The groups hold exactly the chosen tensors, each once, in the group its name says. */
  ghost predicate Grouped(inv: Inventory, chosen: set<string>, groups: Groups, groupOf: string -> Option<string>) {
    && (forall g :: g in groups ==> DistinctNames(groups[g]))
    && (forall g, t :: g in groups && t in groups[g] ==>
        t.name in chosen && t.name in inv && inv[t.name] == t && groupOf(t.name) == Some(g))
    && (forall n :: n in chosen ==>
         n in inv && groupOf(n).Some? && groupOf(n).value in groups
         && inv[n] in groups[groupOf(n).value])
  }

  lemma NothingGrouped(inv: Inventory, groupOf: string -> Option<string>)
    ensures Grouped(inv, {}, map[], groupOf)
  {}

  function AddTo(groups: Groups, g: string, t: SourceTensor): Groups {
    groups[g := (if g in groups then groups[g] else []) + [t]]
  }

  lemma OneMoreName(inv: Inventory, chosen: set<string>, groups: Groups, groupOf: string -> Option<string>, n: string,
                    g: string)
    requires Grouped(inv, chosen, groups, groupOf) && n in inv && n !in chosen && inv[n].name == n
    ensures DistinctNames(AddTo(groups, g, inv[n])[g])
  {
    var was: seq<SourceTensor> := if g in groups then groups[g] else [];
    forall i, j | 0 <= i < j < |was + [inv[n]]| ensures (was + [inv[n]])[i].name != (was + [inv[n]])[j].name {
      assert i < |was| && was[i] in was;
    }
  }

  lemma GroupOneMore(inv: Inventory, chosen: set<string>, groups: Groups, groupOf: string -> Option<string>, n: string,
                     g: string)
    requires Grouped(inv, chosen, groups, groupOf) && Indexed(inv)
    requires n in inv && n !in chosen && groupOf(n) == Some(g)
    ensures Grouped(inv, chosen + {n}, AddTo(groups, g, inv[n]), groupOf)
  {
    var t: SourceTensor, more: Groups := inv[n], AddTo(groups, g, inv[n]);
    assert DistinctNames(more[g]) by { OneMoreName(inv, chosen, groups, groupOf, n, g); }
    hide DistinctNames;
    forall h: string, u: SourceTensor | h in more && u in more[h]
      ensures u.name in chosen + {n} && u.name in inv && inv[u.name] == u && groupOf(u.name) == Some(h)
    {
      if h != g || u != t { assert h in groups && u in groups[h]; }
    }
    forall m | m in chosen + {n}
      ensures m in inv && groupOf(m).Some? && groupOf(m).value in more && inv[m] in more[groupOf(m).value]
    {
      if m != n {
        var h := groupOf(m).value;
        assert inv[m] in groups[h];
      }
    }
  }

  /** The chosen tensors and their scales. */
  function WithScales(inv: Inventory, chosen: set<string>, scales: Scales): set<string>
    requires chosen <= inv.Keys
  {
    chosen + set n | n in chosen && ScaleOf(scales, inv[n]).Some? :: ScaleOf(scales, inv[n]).value.name
  }

  /** Every chosen tensor owns itself and its scale. */
  ghost predicate ChosenOwned(inv: Inventory, chosen: set<string>, scales: Scales, owner: string -> string) {
    forall n :: n in chosen && n in inv ==>
      && owner(n) == n
      && (ScaleOf(scales, inv[n]).Some? ==>
            ScaleOf(scales, inv[n]).value.name != n && owner(ScaleOf(scales, inv[n]).value.name) == n)
  }

  /** What the groups handled so far use. */
  ghost predicate GroupsDone(inv: Inventory, chosen: set<string>, scales: Scales, owner: string -> string,
                             groupOf: string -> Option<string>, done: seq<string>, names: set<string>)
    requires chosen <= inv.Keys
  {
    forall n :: n in names <==>
      n in WithScales(inv, chosen, scales) && groupOf(owner(n)).Some?
      && groupOf(owner(n)).value in done
  }

  lemma GroupOwned(inv: Inventory, chosen: set<string>, groups: Groups, groupOf: string -> Option<string>,
                   scales: Scales, owner: string -> string, g: string)
    requires Grouped(inv, chosen, groups, groupOf) && ChosenOwned(inv, chosen, scales, owner) && g in groups
    ensures Owned(groups[g], scales, owner) && DistinctNames(groups[g])
  {
    forall t | t in groups[g]
      ensures owner(t.name) == t.name
      ensures ScaleOf(scales, t).Some? ==>
        ScaleOf(scales, t).value.name != t.name && owner(ScaleOf(scales, t).value.name) == t.name
    {
      assert t.name in chosen && inv[t.name] == t;
    }
  }

  /** A group's own names are the chosen ones whose owner is in the group. */
  lemma GroupNames(inv: Inventory, chosen: set<string>, groups: Groups, groupOf: string -> Option<string>,
                   scales: Scales, owner: string -> string, g: string, n: string)
    requires Grouped(inv, chosen, groups, groupOf) && ChosenOwned(inv, chosen, scales, owner) && g in groups
      && chosen <= inv.Keys
    requires Indexed(inv)
    ensures n in AllNames(groups[g], scales) <==> n in WithScales(inv, chosen, scales) && groupOf(owner(n)) == Some(g)
  {
    if n in AllNames(groups[g], scales) {
      var t :| t in groups[g] && (t.name == n || (ScaleOf(scales, t).Some? && ScaleOf(scales, t).value.name == n));
      assert t.name in chosen && inv[t.name] == t;
    }
    if n in WithScales(inv, chosen, scales) && groupOf(owner(n)) == Some(g) {
      var m :| m in chosen && (m == n || (ScaleOf(scales, inv[m]).Some? && ScaleOf(scales, inv[m]).value.name == n));
      assert owner(n) == m && inv[m] in groups[g];
    }
  }

  /** The chosen tensors of a group. */
  function Members(inv: Inventory, chosen: set<string>, groupOf: string -> Option<string>,
                   g: string): set<SourceTensor> {
    set n | n in chosen && n in inv && groupOf(n) == Some(g) :: inv[n]
  }

  /** The source with only the chosen tensors of a group. */
  function OfGroup(inv: Inventory, chosen: set<string>, groupOf: string -> Option<string>, g: string): (own: Inventory)
    ensures forall n :: n in own <==> n in inv && n in chosen && groupOf(n) == Some(g)
    ensures forall n :: n in own ==> own[n] == inv[n]
  {
    map n | n in inv && n in chosen && groupOf(n) == Some(g) :: inv[n]
  }

  /** t stacks a projection of one of the groups: all its experts are chosen tensors of that group. */
  ghost predicate StacksGroup(inv: Inventory, chosen: set<string>, groupOf: string -> Option<string>, scales: Scales,
                              quantizeOf: (string, seq<int>) -> string, t: TensorSpec) {
    exists g, p :: SlotsOf(OfGroup(inv, chosen, groupOf, g), g, p, scales, quantizeOf, t)
  }

  /** Every tensor of the blobs does. */
  ghost predicate AllStackGroups(inv: Inventory, chosen: set<string>, groupOf: string -> Option<string>,
                                 scales: Scales, quantizeOf: (string, seq<int>) -> string, specs: seq<BlobSpec>) {
    forall b, t :: b in specs && t in b.tensors ==> StacksGroup(inv, chosen, groupOf, scales, quantizeOf, t)
  }

  /** Every group of the chosen tensors can be stacked. */
  ghost predicate AllAccepted(inv: Inventory, chosen: set<string>, groupOf: string -> Option<string>, scales: Scales) {
    forall n :: n in chosen && groupOf(n).Some? ==>
      GroupAccepted(groupOf(n).value, Members(inv, chosen, groupOf, groupOf(n).value), scales)
  }

  lemma GroupMembers(inv: Inventory, chosen: set<string>, groups: Groups, groupOf: string -> Option<string>, g: string)
    requires Grouped(inv, chosen, groups, groupOf) && g in groups
    ensures MembersOf(groups[g]) == Members(inv, chosen, groupOf, g)
    ensures FromInventory(OfGroup(inv, chosen, groupOf, g), groups[g])
  {
    hide DistinctNames;
    forall t ensures t in MembersOf(groups[g]) <==> t in Members(inv, chosen, groupOf, g) {
      if t in groups[g] { assert t.name in chosen && groupOf(t.name) == Some(g) && inv[t.name] == t; }
      if t in Members(inv, chosen, groupOf, g) {
        var n :| n in chosen && n in inv && groupOf(n) == Some(g) && inv[n] == t;
        assert inv[n] in groups[groupOf(n).value];
      }
    }
    var own := OfGroup(inv, chosen, groupOf, g);
    forall k | 0 <= k < |groups[g]| ensures groups[g][k].name in own && own[groups[g][k].name] == groups[g][k] {
      assert groups[g][k] in groups[g];
    }
  }

  lemma NoneAccepted(group: string, scales: Scales)
    ensures GroupAccepted(group, {}, scales)
  {
    assert Complete(group, {}, 0);
  }

  /** Refusing one group refuses them all ... */
  lemma OneRefused(inv: Inventory, chosen: set<string>, groups: Groups, groupOf: string -> Option<string>,
                   scales: Scales, g: string)
    requires Grouped(inv, chosen, groups, groupOf) && Indexed(inv) && g in groups
      && !GroupAccepted(g, MembersOf(groups[g]), scales)
    ensures !AllAccepted(inv, chosen, groupOf, scales)
  {
    hide GroupAccepted;
    GroupMembers(inv, chosen, groups, groupOf, g);
    if Members(inv, chosen, groupOf, g) == {} { NoneAccepted(g, scales); }
    var t :| t in Members(inv, chosen, groupOf, g);
    var n :| n in chosen && n in inv && groupOf(n) == Some(g) && inv[n] == t;
  }

  /** ... and accepting each accepts all. */
  lemma EachAccepted(inv: Inventory, chosen: set<string>, groups: Groups, groupOf: string -> Option<string>,
                     scales: Scales)
    requires Grouped(inv, chosen, groups, groupOf)
      && forall g :: g in groups ==> GroupAccepted(g, MembersOf(groups[g]), scales)
    ensures AllAccepted(inv, chosen, groupOf, scales)
  {
    hide GroupAccepted, DistinctNames;
    forall n | n in chosen && groupOf(n).Some?
      ensures GroupAccepted(groupOf(n).value, Members(inv, chosen, groupOf, groupOf(n).value), scales)
    {
      GroupMembers(inv, chosen, groups, groupOf, groupOf(n).value);
    }
  }

  /** The blobs of all groups: there are any exactly if every group can be stacked. */
  method PlanGroups(inv: Inventory, groups: Groups, scales: Scales, quantizeOf: (string, seq<int>) -> string,
                    ghost chosen: set<string>, ghost groupOf: string -> Option<string>, ghost owner: string -> string)
    returns (r: Planned<seq<BlobSpec>>)
    requires Indexed(inv) && chosen <= inv.Keys && Grouped(inv, chosen, groups, groupOf)
      && ChosenOwned(inv, chosen, scales, owner)
    ensures r.Planned? <==> AllAccepted(inv, chosen, groupOf, scales)
    ensures r.Planned? ==> Covers(r.value, WithScales(inv, chosen, scales)) && AllWritable(r.value)
    ensures r.Planned? ==> AllStackGroups(inv, chosen, groupOf, scales, quantizeOf, r.value)
  {
    hide Grouped, ChosenOwned, Covers, Writable, StacksGroup, Owned, DistinctNames, AllNames, WithScales, GroupsDone,
      GroupAccepted, AllAccepted, FromInventory, MembersOf, Members, AllSlots, OfGroup;
    var keys := Keys(groups);
    var specs: seq<BlobSpec> := [];
    ghost var names: set<string> := {};
    NothingCovered();
    NoGroupsDone(inv, chosen, scales, owner, groupOf);
    for k := 0 to |keys|
      invariant forall j :: 0 <= j < k ==> GroupAccepted(keys[j], MembersOf(groups[keys[j]]), scales)
      invariant Covers(specs, names) && GroupsDone(inv, chosen, scales, owner, groupOf, keys[..k], names)
        && AllWritable(specs)
      invariant AllStackGroups(inv, chosen, groupOf, scales, quantizeOf, specs)
    {
      var g := keys[k];
      GroupOwned(inv, chosen, groups, groupOf, scales, owner, g);
      GroupMembers(inv, chosen, groups, groupOf, g);
      var blobs := PlanExpertGroup(OfGroup(inv, chosen, groupOf, g), g, groups[g], scales, quantizeOf, owner);
      if blobs.Failed? {
        OneRefused(inv, chosen, groups, groupOf, scales, g);
        return Failed(blobs.reason);
      }
      OneMoreGroup(inv, chosen, groups, groupOf, scales, owner, keys, k, names);
      CoversConcat(specs, names, blobs.value, AllNames(groups[g], scales));
      SlotsInGroups(inv, chosen, groupOf, g, scales, quantizeOf, blobs.value);
      WritableConcat(specs, blobs.value);
      specs, names := specs + blobs.value, names + AllNames(groups[g], scales);
    }
    assert keys[..|keys|] == keys;
    EveryGroupDone(inv, chosen, groups, groupOf, scales, owner, keys, names);
    forall g | g in groups ensures GroupAccepted(g, MembersOf(groups[g]), scales) {
      var j :| 0 <= j < |keys| && keys[j] == g;
    }
    EachAccepted(inv, chosen, groups, groupOf, scales);
    return Planned(specs);
  }

  lemma SlotsInGroups(inv: Inventory, chosen: set<string>, groupOf: string -> Option<string>, g: string,
                      scales: Scales, quantizeOf: (string, seq<int>) -> string, blobs: seq<BlobSpec>)
    requires AllSlots(OfGroup(inv, chosen, groupOf, g), g, scales, quantizeOf, blobs)
    ensures AllStackGroups(inv, chosen, groupOf, scales, quantizeOf, blobs)
  {
    hide SlotsOf, OfGroup;
  }

  lemma WritableConcat(a: seq<BlobSpec>, b: seq<BlobSpec>)
    requires AllWritable(a) && AllWritable(b)
    ensures AllWritable(a + b)
  {
    hide Writable;
  }

  lemma NoGroupsDone(inv: Inventory, chosen: set<string>, scales: Scales, owner: string -> string,
                     groupOf: string -> Option<string>)
    requires chosen <= inv.Keys
    ensures forall keys: seq<string> :: GroupsDone(inv, chosen, scales, owner, groupOf, keys[..0], {})
  {}

  lemma OneMoreGroup(inv: Inventory, chosen: set<string>, groups: Groups, groupOf: string -> Option<string>,
                     scales: Scales, owner: string -> string, keys: seq<string>, k: nat, names: set<string>)
    requires Grouped(inv, chosen, groups, groupOf) && ChosenOwned(inv, chosen, scales, owner) && chosen <= inv.Keys
      && Indexed(inv)
    requires k < |keys| && keys[k] in groups && forall i, j :: 0 <= i < j < |keys| ==> keys[i] != keys[j]
    requires GroupsDone(inv, chosen, scales, owner, groupOf, keys[..k], names)
    ensures names !! AllNames(groups[keys[k]], scales)
    ensures GroupsDone(inv, chosen, scales, owner, groupOf, keys[..k + 1], names + AllNames(groups[keys[k]], scales))
  {
    hide Grouped, ChosenOwned, WithScales, AllNames;
    var g := keys[k];
    assert keys[..k + 1] == keys[..k] + [g];
    assert g !in keys[..k];
    forall n
      ensures n in AllNames(groups[g], scales) <==> n in WithScales(inv, chosen, scales) && groupOf(owner(n)) == Some(g)
    {
      GroupNames(inv, chosen, groups, groupOf, scales, owner, g, n);
    }
  }

  lemma EveryGroupDone(inv: Inventory, chosen: set<string>, groups: Groups, groupOf: string -> Option<string>,
                       scales: Scales, owner: string -> string, keys: seq<string>, names: set<string>)
    requires Grouped(inv, chosen, groups, groupOf) && ChosenOwned(inv, chosen, scales, owner) && chosen <= inv.Keys
    requires (forall g :: g in keys <==> g in groups) && GroupsDone(inv, chosen, scales, owner, groupOf, keys, names)
    ensures names == WithScales(inv, chosen, scales)
  {
    forall n | n in WithScales(inv, chosen, scales) ensures n in names {
      var m :| m in chosen && (m == n || (ScaleOf(scales, inv[m]).Some? && ScaleOf(scales, inv[m]).value.name == n));
      assert owner(n) == m;
    }
  }

  // ----- float sources

  function SetOf(names: seq<string>): (r: set<string>)
    ensures forall n :: n in r <==> n in names
  {
    set n | n in names
  }

  lemma SetOfSnoc(names: seq<string>, k: nat)
    requires k < |names|
    ensures SetOf(names[..k + 1]) == SetOf(names[..k]) + {names[k]}
    ensures SetOf(names[..0]) == {} && SetOf(names[..|names|]) == SetOf(names)
  {
    assert names[..k + 1] == names[..k] + [names[k]] && names[..|names|] == names;
  }

  predicate Once(names: seq<string>) {
    forall i, j :: 0 <= i < j < |names| ==> names[i] != names[j]
  }

  /** The names seen so far, split into experts by group and the rest. */
  ghost predicate SplitUp(inv: Inventory, seen: seq<string>, groupOf: string -> Option<string>, groups: Groups,
                          plain: seq<string>, chosen: set<string>) {
    && chosen <= inv.Keys && Grouped(inv, chosen, groups, groupOf) && Once(plain)
    && (forall n :: n in chosen <==> n in seen && groupOf(n).Some?)
    && (forall n :: n in plain <==> n in seen && groupOf(n).None?)
  }

  lemma SplitOneMore(inv: Inventory, names: seq<string>, k: nat, groupOf: string -> Option<string>, groups: Groups,
                     plain: seq<string>, chosen: set<string>)
    requires Indexed(inv) && k < |names| && Once(names) && names[k] in inv
    requires SplitUp(inv, names[..k], groupOf, groups, plain, chosen)
    ensures groupOf(names[k]).Some? ==>
      SplitUp(inv, names[..k + 1], groupOf, AddTo(groups, groupOf(names[k]).value, inv[names[k]]), plain,
              chosen + {names[k]})
    ensures groupOf(names[k]).None? ==> SplitUp(inv, names[..k + 1], groupOf, groups, plain + [names[k]], chosen)
  {
    hide Grouped, AddTo;
    assert names[..k + 1] == names[..k] + [names[k]];
    assert names[k] !in names[..k];
    if groupOf(names[k]).Some? {
      GroupOneMore(inv, chosen, groups, groupOf, names[k], groupOf(names[k]).value);
    }
  }

  /** planFloat's first loop. */
  method SplitNames(inv: Inventory, names: seq<string>, groupOf: string -> Option<string>)
    returns (groups: Groups, plain: seq<string>, ghost chosen: set<string>)
    requires Indexed(inv) && Once(names) && forall n :: n in names <==> n in inv
    ensures SplitUp(inv, names, groupOf, groups, plain, chosen)
  {
    hide AddTo;
    groups, plain, chosen := map[], [], {};
    NothingGrouped(inv, groupOf);
    assert SplitUp(inv, names[..0], groupOf, groups, plain, chosen);
    hide SplitUp;
    for k := 0 to |names|
      invariant SplitUp(inv, names[..k], groupOf, groups, plain, chosen)
    {
      var name := names[k];
      SplitOneMore(inv, names, k, groupOf, groups, plain, chosen);
      var gp := groupOf(name);
      if gp.Some? {
        groups, chosen := AddTo(groups, gp.value, inv[name]), chosen + {name};
      } else {
        plain := plain + [name];
      }
    }
    assert names[..|names|] == names;
  }

  function QuantizeFor(quantize: string, policy: Policy): (string, seq<int>) -> string {
    (n, shape) => if quantize != "" then policy(n, shape, quantize) else ""
  }

  lemma NoScaleNames(inv: Inventory, chosen: set<string>)
    requires chosen <= inv.Keys
    ensures WithScales(inv, chosen, NoScales) == chosen
    ensures ChosenOwned(inv, chosen, NoScales, n => n)
  {}

  /** A float plan copies every tensor outside the groups, quantized as the policy says, and otherwise only stacks
      experts. */
  ghost predicate FloatPlan(inv: Inventory, quantizeOf: (string, seq<int>) -> string, groupOf: string -> Option<string>,
                            specs: seq<BlobSpec>) {
    && (forall n :: n in inv && groupOf(n).None? ==> CopyOf(inv[n], quantizeOf(n, inv[n].shape)) in specs)
    && (forall b, t :: b in specs && t in b.tensors ==>
        || (CopiesOne(inv, t) && groupOf(t.name).None?)
        || StacksGroup(inv, Experts(inv, groupOf), groupOf, NoScales, quantizeOf, t))
  }

  ghost predicate CopiesOne(inv: Inventory, t: TensorSpec) {
    t.transform == Copy && t.name in inv && t.sources == [inv[t.name]]
  }

  lemma FloatPlanned(inv: Inventory, names: seq<string>, groupOf: string -> Option<string>, groups: Groups,
                     plain: seq<string>, chosen: set<string>, quantizeOf: (string, seq<int>) -> string,
                     specs: seq<BlobSpec>, grouped: seq<BlobSpec>)
    requires Indexed(inv) && (forall n :: n in names <==> n in inv)
      && SplitUp(inv, names, groupOf, groups, plain, chosen)
    requires Covers(specs, SetOf(plain)) && AllWritable(specs) && |specs| == |plain|
    requires forall i :: 0 <= i < |plain| ==>
      plain[i] in inv
      && specs[i] == CopyOf(inv[plain[i]], quantizeOf(plain[i], inv[plain[i]].shape))
    requires Covers(grouped, chosen) && AllWritable(grouped)
    requires AllStackGroups(inv, chosen, groupOf, NoScales, quantizeOf, grouped)
    ensures Covers(specs + grouped, inv.Keys) && AllWritable(specs + grouped)
      && FloatPlan(inv, quantizeOf, groupOf, specs + grouped)
  {
    hide Grouped, Covers, Writable, StacksGroup, CopyOf, CopiesOne, Experts, AllStackGroups;
    CoversConcat(specs, SetOf(plain), grouped, chosen);
    assert SetOf(plain) + chosen == inv.Keys;
    WritableConcat(specs, grouped);
    forall n | n in inv && groupOf(n).None? ensures CopyOf(inv[n], quantizeOf(n, inv[n].shape)) in specs + grouped {
      assert n in plain;
      var i :| 0 <= i < |plain| && plain[i] == n;
      assert specs[i] in specs;
    }
    SplitFacts(inv, names, groupOf, groups, plain, chosen);
    CopiesOrStacks(inv, plain, groupOf, quantizeOf, specs, grouped);
  }

  /** The tensors that belong to expert groups. */
  function Experts(inv: Inventory, groupOf: string -> Option<string>): set<string> {
    set n | n in inv && groupOf(n).Some?
  }

  /** planFloat: exactly the sources whose groups can be stacked are accepted, and then every tensor is used exactly
      once and the plan can be written. */
  method PlanFloat(inv: Inventory, quantize: string, policy: Policy, prefixOf: string -> string)
    returns (r: Planned<seq<BlobSpec>>)
    requires Indexed(inv)
    ensures r.Planned? <==> AllAccepted(inv, Experts(inv, GroupOf(prefixOf)), GroupOf(prefixOf), NoScales)
    ensures r.Planned? ==> Covers(r.value, inv.Keys) && AllWritable(r.value)
    ensures r.Planned? ==> FloatPlan(inv, QuantizeFor(quantize, policy), GroupOf(prefixOf), r.value)
    ensures r.Planned? ==> FloatPlaces(inv, quantize, policy, prefixOf, r.value)
  {
    hide Covers, AllWritable, CopyOf, SlotsOf, QuantizeFor, GroupOf, SplitUp, FloatPlan, ChosenOwned, WithScales,
      Grouped, AllAccepted, Experts, AllStackGroups, FloatPlaces;
    var names := Keys(inv);
    var groups, plain;
    ghost var chosen;
    groups, plain, chosen := SplitNames(inv, names, GroupOf(prefixOf));
    SplitFacts(inv, names, GroupOf(prefixOf), groups, plain, chosen);
    var quantizeOf := QuantizeFor(quantize, policy);
    var specs := PlanPlain(inv, plain, quantizeOf);
    NoScaleNames(inv, chosen);
    var grouped := PlanGroups(inv, groups, NoScales, quantizeOf, chosen, GroupOf(prefixOf), n => n);
    if grouped.Failed? {
      return Failed(grouped.reason);
    }
    FloatPlanned(inv, names, GroupOf(prefixOf), groups, plain, chosen, quantizeOf, specs, grouped.value);
    FloatPlaced(inv, quantize, policy, prefixOf, specs + grouped.value);
    return Planned(specs + grouped.value);
  }

  function GroupOf(prefixOf: string -> string): string -> Option<string> {
    n => PerExpertGroup(n, prefixOf)
  }

  lemma SplitFacts(inv: Inventory, names: seq<string>, groupOf: string -> Option<string>, groups: Groups,
                   plain: seq<string>, chosen: set<string>)
    requires SplitUp(inv, names, groupOf, groups, plain, chosen) && forall n :: n in names ==> n in inv
    ensures chosen <= inv.Keys && Grouped(inv, chosen, groups, groupOf) && Once(plain)
      && forall n :: n in plain ==> n in inv
    ensures (forall n :: n in inv ==> n in names) ==> chosen == Experts(inv, groupOf)
  {
    hide Grouped;
  }

  lemma CopiesOrStacks(inv: Inventory, plain: seq<string>, groupOf: string -> Option<string>,
                       quantizeOf: (string, seq<int>) -> string, specs: seq<BlobSpec>, grouped: seq<BlobSpec>)
    requires Indexed(inv) && |specs| == |plain|
    requires forall i :: 0 <= i < |plain| ==>
      plain[i] in inv && groupOf(plain[i]).None?
      && specs[i] == CopyOf(inv[plain[i]], quantizeOf(plain[i], inv[plain[i]].shape))
    requires AllStackGroups(inv, Experts(inv, groupOf), groupOf, NoScales, quantizeOf, grouped)
    ensures forall b, t :: b in specs + grouped && t in b.tensors ==>
      || (CopiesOne(inv, t) && groupOf(t.name).None?)
      || StacksGroup(inv, Experts(inv, groupOf), groupOf, NoScales, quantizeOf, t)
  {
    hide StacksGroup, Experts;
    forall b, t | b in specs + grouped && t in b.tensors
      ensures || (CopiesOne(inv, t) && groupOf(t.name).None?)
              || StacksGroup(inv, Experts(inv, groupOf), groupOf, NoScales, quantizeOf, t)
    {
      if b in specs {
        var i :| 0 <= i < |specs| && specs[i] == b;
        assert plain[i] in inv && t.name == plain[i] && t.sources == [inv[plain[i]]];
      }
    }
  }

  /** The tensors outside any group: a blob each. */
  method PlanPlain(inv: Inventory, plain: seq<string>, quantizeOf: (string, seq<int>) -> string)
    returns (specs: seq<BlobSpec>)
    requires Indexed(inv) && (forall n :: n in plain ==> n in inv) && Once(plain)
    ensures Covers(specs, SetOf(plain)) && AllWritable(specs) && |specs| == |plain|
    ensures forall i :: 0 <= i < |plain| ==>
      specs[i] == CopyOf(inv[plain[i]], quantizeOf(plain[i], inv[plain[i]].shape))
  {
    hide Covers, Writable, CopyOf;
    specs := [];
    NothingCovered();
    assert SetOf(plain[..0]) == {};
    for k := 0 to |plain|
      invariant |specs| == k && Covers(specs, SetOf(plain[..k])) && AllWritable(specs)
      invariant forall i :: 0 <= i < k ==> specs[i] == CopyOf(inv[plain[i]], quantizeOf(plain[i], inv[plain[i]].shape))
    {
      var name := plain[k];
      var blob := CopyOf(inv[name], quantizeOf(name, inv[name].shape));
      CopyCovers(inv[name], quantizeOf(name, inv[name].shape));
      CopyWritable(inv[name], quantizeOf(name, inv[name].shape));
      assert name !in SetOf(plain[..k]);
      CoversConcat(specs, SetOf(plain[..k]), [blob], {name});
      SetOfSnoc(plain, k);
      specs := specs + [blob];
    }
    assert plain[..|plain|] == plain;
  }

  // ----- where each tensor ends up

  /** The name is that of expert i of projection p of its own group. */
  ghost predicate NamesExpert(prefixOf: string -> string, n: string, i: nat, p: string) {
    prefixOf(n) != "" && i <= MaxInt && n == ExpertName(prefixOf(n), i, p)
  }

  /** The name belongs to its own group: it goes on after it with an integer. */
  ghost predicate Belongs(prefixOf: string -> string, n: string) {
    prefixOf(n) != "" && Numbered(prefixOf(n), n)
  }

  /** t stacks `count` experts of one layout under a name: the source is the one at place i, and if it has a scale, so
      have all, and its own is at place i after the experts. */
  ghost predicate InSlot(t: TensorSpec, name: string, source: SourceTensor, i: nat, scale: Option<SourceTensor>,
                         count: nat) {
    && t.name == name && i < count <= |t.sources| && t.sources[i] == source
    && t.outDtype == source.dtype && t.outShape == Some([count] + source.shape)
    && match scale
       case None => t.transform == StackExperts && |t.sources| == count
       case Some(s) => t.transform == DecodeStackFP8 && |t.sources| == 2 * count && t.sources[count + i] == s
  }

  /** Some tensor of the plan does, quantized as asked. */
  ghost predicate InStack(specs: seq<BlobSpec>, name: string, source: SourceTensor, i: nat,
                          scale: Option<SourceTensor>, quantizeOf: (string, seq<int>) -> string) {
    exists b, t, count: nat :: b in specs && t in b.tensors && InSlot(t, name, source, i, scale, count)
      && t.quantize == quantizeOf(name, [count] + source.shape)
  }

  /** The plan has a blob of this one tensor. */
  ghost predicate Alone(specs: seq<BlobSpec>, t: TensorSpec) {
    BlobSpec(t.name, [t], map[]) in specs
  }

  /** Where each tensor of a float source ends up. A name that goes on with an integer after its own group is that of an
      expert, and the expert is in its slot of the stack of its projection; any other tensor is copied into a blob of
      its own. The policy is asked only when quantization is. */
  ghost predicate FloatPlaces(inv: Inventory, quantize: string, policy: Policy, prefixOf: string -> string,
                              specs: seq<BlobSpec>) {
    var asked: (string, seq<int>) -> string := (n, shape) => if quantize == "" then "" else policy(n, shape, quantize);
    && (forall n :: n in inv && Belongs(prefixOf, n) ==>
          exists i: nat, p :: NamesExpert(prefixOf, n, i, p))
    && (forall n, i: nat, p :: n in inv && NamesExpert(prefixOf, n, i, p) ==>
          InStack(specs, prefixOf(n) + "." + p + ".weight", inv[n], i, None, asked))
    && (forall n :: n in inv && !Belongs(prefixOf, n) ==>
          Alone(specs, TensorSpec(n, [inv[n]], Copy, asked(n, inv[n].shape), "", None)))
  }

  /** A chosen tensor of an accepted group is named after an expert of it. */
  lemma AcceptedNames(inv: Inventory, chosen: set<string>, prefixOf: string -> string, scales: Scales, n: string)
    requires Indexed(inv) && AllAccepted(inv, chosen, GroupOf(prefixOf), scales)
    requires n in inv && n in chosen && GroupOf(prefixOf)(n).Some?
    ensures exists i: nat, p :: NamesExpert(prefixOf, n, i, p)
  {
    hide Complete, AllAlike, PerExpertGroup, ParseExpertTensor, ExpertName;
    GroupedExactly(n, prefixOf);
    var g := prefixOf(n);
    assert inv[n] in Members(inv, chosen, GroupOf(prefixOf), g);
    assert Placeable(g, scales, inv[n]);
    var (i, p) := ParseExpertTensor(g, n).value;
    ParsesExactly(g, n, i, p);
    assert NamesExpert(prefixOf, n, i, p);
  }

  /** Where a stack of a group holds a chosen tensor, it is the tensor's own slot. */
  lemma OwnSlot(inv: Inventory, chosen: set<string>, prefixOf: string -> string, scales: Scales,
                quantizeOf: (string, seq<int>) -> string, t: TensorSpec, n: string, k: nat, i: nat, p: string)
    requires StacksGroup(inv, chosen, GroupOf(prefixOf), scales, quantizeOf, t) && NamesExpert(prefixOf, n, i, p)
    requires k < |t.sources| && t.sources[k].name == n && t.outShape.Some? && t.outShape.value != []
    requires 0 <= k < t.outShape.value[0]
    ensures n in inv && n in chosen && t.outShape.value[0] > 0
    ensures var s := if scales.Scales? then scales.of(inv[n]) else None;
      && (scales.Scales? ==> s.Some?)
      && InSlot(t, prefixOf(n) + "." + p + ".weight", inv[n], i, s, t.outShape.value[0])
      && t.quantize == quantizeOf(t.name, [t.outShape.value[0]] + inv[n].shape)
  {
    hide ExpertName, PerExpertGroup, WeightSuffix;
    var groupOf := GroupOf(prefixOf);
    var g, q :| SlotsOf(OfGroup(inv, chosen, groupOf, g), g, q, scales, quantizeOf, t);
    var own, count := OfGroup(inv, chosen, groupOf, g), t.outShape.value[0];
    assert SlotOf(own, g, q, scales, t.sources, t.outShape.value[1..], t.outDtype, count, k);
    GroupedExactly(n, prefixOf);
    assert n == ExpertName(g, k, q) && g == prefixOf(n);
    NamesDistinct(g, k, q, i, p);
    assert t.outShape.value == [count] + t.outShape.value[1..];
    SuffixIsWeight();
  }

  lemma SuffixIsWeight()
    ensures WeightSuffix == ".weight"
  {}

  lemma FloatExpertInStack(inv: Inventory, quantizeOf: (string, seq<int>) -> string, prefixOf: string -> string,
                           specs: seq<BlobSpec>, n: string, i: nat, p: string)
    requires Indexed(inv) && Covers(specs, inv.Keys) && FloatPlan(inv, quantizeOf, GroupOf(prefixOf), specs)
    requires n in inv && NamesExpert(prefixOf, n, i, p)
    ensures InStack(specs, prefixOf(n) + "." + p + ".weight", inv[n], i, None, quantizeOf)
  {
    hide ExpertName, PerExpertGroup, SlotsOf, StacksGroup, InSlot, Experts;
    ExpertsGrouped(prefixOf(n), i, p, prefixOf);
    assert Uses(specs, n) == 1;
    var b, t, k := UsedSomewhere(specs, n);
    assert !(CopiesOne(inv, t) && GroupOf(prefixOf)(t.name).None?) by {
      if CopiesOne(inv, t) { assert t.sources[k] == inv[t.name]; }
    }
    StackShape(inv, Experts(inv, GroupOf(prefixOf)), GroupOf(prefixOf), NoScales, quantizeOf, t);
    OwnSlot(inv, Experts(inv, GroupOf(prefixOf)), prefixOf, NoScales, quantizeOf, t, n, k, i, p);
    StackFound(specs, b, t, prefixOf(n) + "." + p + ".weight", inv[n], i, None, t.outShape.value[0], quantizeOf);
  }

  lemma StackFound(specs: seq<BlobSpec>, b: BlobSpec, t: TensorSpec, name: string, source: SourceTensor, i: nat,
                   scale: Option<SourceTensor>, count: nat, quantizeOf: (string, seq<int>) -> string)
    requires b in specs && t in b.tensors && InSlot(t, name, source, i, scale, count)
    requires t.quantize == quantizeOf(t.name, [count] + source.shape)
    ensures InStack(specs, name, source, i, scale, quantizeOf)
  {}

  /** The sources of a stack: its experts, and a scale for each if there are scales. */
  lemma StackShape(inv: Inventory, chosen: set<string>, groupOf: string -> Option<string>, scales: Scales,
                   quantizeOf: (string, seq<int>) -> string, t: TensorSpec)
    requires StacksGroup(inv, chosen, groupOf, scales, quantizeOf, t)
    ensures t.outShape.Some? && t.outShape.value != [] && t.outShape.value[0] > 0
    ensures |t.sources| == if scales.Scales? then 2 * t.outShape.value[0] else t.outShape.value[0]
  {
    hide ExpertName, OfGroup;
    var g, p :| SlotsOf(OfGroup(inv, chosen, groupOf, g), g, p, scales, quantizeOf, t);
    assert SlotOf(OfGroup(inv, chosen, groupOf, g), g, p, scales, t.sources, t.outShape.value[1..], t.outDtype,
                  t.outShape.value[0], 0);
  }

  lemma FloatPlaced(inv: Inventory, quantize: string, policy: Policy, prefixOf: string -> string,
                    specs: seq<BlobSpec>)
    requires Indexed(inv) && Covers(specs, inv.Keys)
    requires AllAccepted(inv, Experts(inv, GroupOf(prefixOf)), GroupOf(prefixOf), NoScales)
    requires FloatPlan(inv, QuantizeFor(quantize, policy), GroupOf(prefixOf), specs)
    ensures FloatPlaces(inv, quantize, policy, prefixOf, specs)
  {
    hide Covers, AllAccepted, FloatPlan, NamesExpert, InStack, Numbered, PerExpertGroup;
    var asked: (string, seq<int>) -> string := (n, shape) => if quantize == "" then "" else policy(n, shape, quantize);
    var quantizeOf := QuantizeFor(quantize, policy);
    forall n | n in inv && Belongs(prefixOf, n)
      ensures exists i: nat, p :: NamesExpert(prefixOf, n, i, p)
    {
      GroupedExactly(n, prefixOf);
      AcceptedNames(inv, Experts(inv, GroupOf(prefixOf)), prefixOf, NoScales, n);
    }
    forall n, i: nat, p | n in inv && NamesExpert(prefixOf, n, i, p)
      ensures InStack(specs, prefixOf(n) + "." + p + ".weight", inv[n], i, None, asked)
    {
      FloatExpertInStack(inv, quantizeOf, prefixOf, specs, n, i, p);
      SameQuantize(specs, prefixOf(n) + "." + p + ".weight", inv[n], i, None, quantizeOf, asked);
    }
    forall n | n in inv && !Belongs(prefixOf, n)
      ensures Alone(specs, TensorSpec(n, [inv[n]], Copy, asked(n, inv[n].shape), "", None))
    {
      GroupedExactly(n, prefixOf);
      FloatCopied(inv, quantizeOf, GroupOf(prefixOf), specs, n);
    }
  }

  lemma FloatCopied(inv: Inventory, quantizeOf: (string, seq<int>) -> string, groupOf: string -> Option<string>,
                    specs: seq<BlobSpec>, n: string)
    requires Indexed(inv) && FloatPlan(inv, quantizeOf, groupOf, specs) && n in inv && groupOf(n).None?
    ensures Alone(specs, TensorSpec(n, [inv[n]], Copy, quantizeOf(n, inv[n].shape), "", None))
  {
    hide StacksGroup;
  }

  lemma SameQuantize(specs: seq<BlobSpec>, name: string, source: SourceTensor, i: nat, scale: Option<SourceTensor>,
                     a: (string, seq<int>) -> string, b: (string, seq<int>) -> string)
    requires InStack(specs, name, source, i, scale, a) && forall n, shape :: a(n, shape) == b(n, shape)
    ensures InStack(specs, name, source, i, scale, b)
  {
    hide InSlot;
  }
}
