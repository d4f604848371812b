/** create/create.go: which layer a name's expert group belongs to. */
module ExpertPrefixes {
  import opened Text
  import opened ExpertNames

  const Model := "model."
  const Language := "language_model."
  const Backbone := "backbone."

  const Owners := [Model + Language + Backbone, Model + Language, Language, Language + Model, Language + Backbone,
                   Model, Backbone, "mtp.", ""]

  const Markers := [".mlp.experts", ".mlp.shared_experts", ".mlp.switch_mlp", ".moe.experts", ".mixer.experts",
                    ".mixer.shared_experts"]

  const Layers := "layers."

  predicate IsDigit(c: char) { '0' <= c <= '9' }

  predicate AllDigits(s: string) { s != "" && forall i :: 0 <= i < |s| ==> IsDigit(s[i]) }

  /** A layer of one of the models' stacks: the owner, "layers." and a number. */
  predicate LayerOf(s: string, owner: string) {
    HasPrefix(s, owner + Layers) && AllDigits(TrimPrefix(s, owner + Layers))
  }

  /** expertLayerPrefixRegexp */
  predicate IsLayer(s: string) { exists k :: 0 <= k < |Owners| && LayerOf(s, Owners[k]) }

  predicate OccursAt(s: string, sub: string, at: nat) {
    at + |sub| <= |s| && s[at..at + |sub|] == sub
  }

  /** strings.Index */
  function Index(s: string, sub: string): (at: Option<nat>)
    ensures at.Some? ==> OccursAt(s, sub, at.value)
  {
    if |s| < |sub| then None
    else if s[..|sub|] == sub then Some(0)
    else if s == "" then None
    else match Index(s[1..], sub)
      case None => None
      case Some(at) =>
        assert s[at + 1..at + 1 + |sub|] == s[1..][at..at + |sub|];
        Some(at + 1)
  }

  /** The index is that of the first occurrence. */
  lemma {:induction false} IndexFirst(s: string, sub: string, at: nat)
    requires OccursAt(s, sub, at)
    ensures Index(s, sub).Some? && Index(s, sub).value <= at
  {
    if s[..|sub|] != sub {
      assert s[1..][at - 1..at - 1 + |sub|] == s[at..at + |sub|];
      IndexFirst(s[1..], sub, at - 1);
    }
  }

  function PrefixFrom(name: string, k: nat): string
    requires k <= |Markers|
    decreases |Markers| - k
  {
    if k == |Markers| then ""
    else
      var at := Index(name, Markers[k] + ".");
      if at.Some? && IsLayer(name[..at.value]) then name[..at.value] + Markers[k] else PrefixFrom(name, k + 1)
  }

  function ExpertGroupPrefix(name: string): string {
    if HasSuffix(name, ".weight") then PrefixFrom(name, 0) else ""
  }

  // ----- layers and markers do not run into each other

  /** A dot in an owner comes after a letter, and where an m follows it, "model" does. */
  predicate DotAt(o: string, at: nat)
    requires at < |o|
  {
    && at > 0 && !IsDigit(o[at - 1])
    && (at + 1 < |o| ==> o[at + 1] != 'm' || (at + 3 < |o| && o[at + 3] == 'd'))
  }

  ghost predicate DotsApart(o: string) {
    forall at: nat :: at < |o| && o[at] == '.' ==> DotAt(o, at)
  }

  lemma Words()
    ensures DotsApart(Model) && DotsApart(Language) && DotsApart(Backbone) && DotsApart("mtp.") && DotsApart("")
    ensures |Model| == 6 && Model[0] == 'm' && Model[2] == 'd' && Model[5] == '.'
    ensures |Language| == 15 && Language[0] == 'l' && Language[14] == '.'
    ensures |Backbone| == 9 && Backbone[0] == 'b' && Backbone[8] == '.'
  {}

  lemma WordsTogether(a: string, b: string)
    requires DotsApart(a) && DotsApart(b) && |a| > 5 && |b| > 5 && a[|a| - 1] == '.' && b[0] != '.'
    requires b[0] != 'm' || b[2] == 'd'
    ensures DotsApart(a + b) && (a + b)[|a + b| - 1] == b[|b| - 1]
  {
    hide DotAt;
    forall at: nat | at < |a + b| && (a + b)[at] == '.' ensures DotAt(a + b, at) { DotTogether(a, b, at); }
  }

  lemma DotTogether(a: string, b: string, at: nat)
    requires DotsApart(a) && DotsApart(b) && |a| > 5 && |b| > 5 && a[|a| - 1] == '.' && b[0] != '.'
    requires (b[0] != 'm' || b[2] == 'd') && at < |a + b| && (a + b)[at] == '.'
    ensures DotAt(a + b, at)
  {
    if at < |a| {
      assert DotAt(a, at);
    } else {
      assert DotAt(b, at - |a|);
    }
  }

  lemma OwnerDots(k: nat)
    requires k < |Owners|
    ensures DotsApart(Owners[k]) && (Owners[k] != "" ==> Owners[k][|Owners[k]| - 1] == '.')
  {
    Words();
    hide DotsApart, Model, Language, Backbone;
    WordsTogether(Model, Language);
    WordsTogether(Model + Language, Backbone);
    WordsTogether(Language, Model);
    WordsTogether(Language, Backbone);
  }

  /** A layer's name taken apart. */
  ghost predicate Parts(s: string, owner: string, number: string) {
    && s == owner + Layers + number && AllDigits(number)
    && DotsApart(owner) && (owner != "" ==> owner[|owner| - 1] == '.')
  }

  lemma LayerParts(s: string) returns (owner: string, number: string)
    requires IsLayer(s)
    ensures Parts(s, owner, number)
  {
    hide Owners, DotsApart, AllDigits, Layers;
    var k :| 0 <= k < |Owners| && LayerOf(s, Owners[k]);
    OwnerDots(k);
    owner, number := Owners[k], TrimPrefix(s, Owners[k] + Layers);
  }

  /** A dot in a layer's name comes after a letter, and what follows it is the start of no marker. */
  lemma LayerDots(s: string, at: nat)
    requires IsLayer(s) && at < |s| && s[at] == '.'
    ensures at > 0 && !IsDigit(s[at - 1]) && at + 1 < |s|
    ensures s[at + 1] != 'm' || (at + 3 < |s| && s[at + 3] == 'd')
  {
    hide IsLayer, DotsApart;
    var o, number := LayerParts(s);
    assert Layers[0] == 'l' && Layers[5] == 's' && Layers[6] == '.' && |Layers| == 7;
    if at < |o| {
      OwnerDotAt(o, at);
    } else if at < |o| + 7 {
      assert s[at] == Layers[at - |o|];
    }
  }

  lemma OwnerDotAt(o: string, at: nat)
    requires DotsApart(o) && at < |o| && o[at] == '.'
    ensures DotAt(o, at)
  {}

  lemma LayerEnds(s: string)
    requires IsLayer(s)
    ensures s != "" && IsDigit(s[|s| - 1])
  {
    hide IsLayer, DotsApart;
    var o, number := LayerParts(s);
    assert s[|s| - 1] == number[|number| - 1];
  }

  /** Of a name, only one layer is followed by a dot. */
  lemma OneLayer(name: string, m: nat, n: nat)
    requires m < |name| && n < |name| && IsLayer(name[..m]) && IsLayer(name[..n]) && name[m] == '.' && name[n] == '.'
    ensures m == n
  {
    hide IsLayer;
    LayerEnds(name[..m]);
    LayerEnds(name[..n]);
    if m < n {
      LayerDots(name[..n], m);
    } else if n < m {
      LayerDots(name[..m], n);
    }
  }

  lemma MarkerShape(k: nat)
    requires k < |Markers|
    ensures |Markers[k]| > 7 && Markers[k][0] == '.' && Markers[k][1] == 'm' && Markers[k][3] != 'd'
  {}

  /** No two markers begin alike. */
  lemma MarkersApart(j: nat, k: nat, s: string)
    requires j < |Markers| && k < |Markers| && HasPrefix(s, Markers[j] + ".") && HasPrefix(s, Markers[k] + ".")
    ensures j == k
  {
    MarkerShape(j);
    MarkerShape(k);
    forall i | 0 <= i < 8 ensures Markers[j][i] == Markers[k][i] {
      assert s[i] == (Markers[j] + ".")[i] == (Markers[k] + ".")[i];
    }
    if j != k {
      MarkersDiffer(j, k);
    }
  }

  lemma MarkersDiffer(j: nat, k: nat)
    requires j < |Markers| && k < |Markers| && j != k
    ensures |Markers[j]| > 7 && |Markers[k]| > 7 && exists i :: 0 <= i < 8 && Markers[j][i] != Markers[k][i]
  {
    MarkerShape(j);
    MarkerShape(k);
    MarkerSigns(j);
    MarkerSigns(k);
  }

  lemma MarkerSigns(k: nat)
    requires k < |Markers|
    ensures |Markers[k]| > 7
    ensures (Markers[k][2], Markers[k][5], Markers[k][6], Markers[k][7]) == match k
      case 0 => ('l', 'e', 'x', 'p')
      case 1 => ('l', 's', 'h', 'a')
      case 2 => ('l', 's', 'w', 'i')
      case 3 => ('o', 'e', 'x', 'p')
      case 4 => ('i', 'r', '.', 'e')
      case _ => ('i', 'r', '.', 's')
  {}

  // ----- the group prefix of a name

  /** name goes on after a layer with marker k and a dot. */
  ghost predicate Marked(name: string, layer: string, k: nat) {
    k < |Markers| && IsLayer(layer) && HasPrefix(name, layer + Markers[k] + ".")
  }

  /** Where a marker follows a layer, it is the first of its kind in the name. */
  lemma FirstMarker(name: string, layer: string, k: nat)
    requires Marked(name, layer, k)
    ensures Index(name, Markers[k] + ".") == Some(|layer|) && name[..|layer|] == layer && name[|layer|] == '.'
    ensures HasPrefix(name[|layer|..], Markers[k] + ".")
  {
    hide IsLayer, Index, Markers, HasPrefix;
    MarkerShape(k);
    var m := Markers[k] + ".";
    Regroup(layer, Markers[k], ".");
    AfterLayer(name, layer, m);
    IndexFirst(name, m, |layer|);
    var at := Index(name, m).value;
    if at < |layer| {
      NoMarkerInside(name, layer, m, at);
      assert false;
    }
  }

  lemma AfterLayer(name: string, layer: string, m: string)
    requires HasPrefix(name, layer + m) && m != ""
    ensures name[..|layer|] == layer && name[|layer|] == m[0] && HasPrefix(name[|layer|..], m)
    ensures OccursAt(name, m, |layer|) && HasPrefix(name, layer)
  {
    assert name == layer + m + name[|layer + m|..];
  }

  lemma NoMarkerInside(name: string, layer: string, m: string, at: nat)
    requires IsLayer(layer) && HasPrefix(name, layer) && at < |layer|
    requires |m| > 7 && m[0] == '.' && m[1] == 'm' && m[3] != 'd'
    ensures !OccursAt(name, m, at)
  {
    hide IsLayer;
    if OccursAt(name, m, at) {
      var here := name[at..at + |m|];
      assert here[0] == name[at] && here[1] == name[at + 1] && here[3] == name[at + 3];
      LayerDots(layer, at);
    }
  }

  lemma OtherMarker(name: string, layer: string, k: nat, j: nat)
    requires Marked(name, layer, k) && j < |Markers| && j != k
    ensures var at := Index(name, Markers[j] + "."); at.None? || !IsLayer(name[..at.value])
  {
    hide IsLayer, Index;
    var at := Index(name, Markers[j] + ".");
    FirstMarker(name, layer, k);
    if at.Some? && IsLayer(name[..at.value]) {
      MarkerShape(j);
      var m := Markers[j] + ".";
      assert name[at.value] == m[0];
      OneLayer(name, at.value, |layer|);
      assert HasPrefix(name[|layer|..], m);
      MarkersApart(j, k, name[|layer|..]);
      assert false;
    }
  }

  lemma PrefixAt(name: string, layer: string, k: nat, j: nat)
    requires Marked(name, layer, k) && j <= k
    ensures PrefixFrom(name, j) == layer + Markers[k]
    decreases k - j
  {
    hide IsLayer, Index, Markers;
    if j == k {
      FirstMarker(name, layer, k);
    } else {
      OtherMarker(name, layer, k, j);
      PrefixAt(name, layer, k, j + 1);
    }
  }

  lemma {:induction false} PrefixIsMarked(name: string, j: nat) returns (layer: string, k: nat)
    requires j <= |Markers| && PrefixFrom(name, j) != ""
    ensures Marked(name, layer, k) && PrefixFrom(name, j) == layer + Markers[k]
    decreases |Markers| - j
  {
    hide IsLayer, Index, Markers;
    var at := Index(name, Markers[j] + ".");
    if at.Some? && IsLayer(name[..at.value]) {
      layer, k := name[..at.value], j;
      assert name[..at.value] + name[at.value..at.value + |Markers[j] + "."|] <= name;
      assert layer + Markers[k] + "." == layer + (Markers[k] + ".");
    } else {
      layer, k := PrefixIsMarked(name, j + 1);
    }
  }

  /** A weight's group is a layer and a marker exactly where its name goes on after them with a dot. */
  lemma GroupPrefixExactly(name: string, layer: string, k: nat)
    requires IsLayer(layer) && k < |Markers|
    ensures ExpertGroupPrefix(name) == layer + Markers[k]
      <==> HasSuffix(name, ".weight") && HasPrefix(name, layer + Markers[k] + ".")
  {
    hide IsLayer, PrefixFrom, HasSuffix;
    if HasSuffix(name, ".weight") && HasPrefix(name, layer + Markers[k] + ".") {
      PrefixAt(name, layer, k, 0);
    }
    MarkerShape(k);
    if ExpertGroupPrefix(name) == layer + Markers[k] {
      var other, j := PrefixIsMarked(name, 0);
      hide Markers;
    }
  }

  /** The experts of a layer's group belong to it. */
  lemma LayerExperts(layer: string, k: nat, idx: nat, proj: string)
    requires IsLayer(layer) && k < |Markers| && idx <= MaxInt
    ensures ExpertGroupPrefix(ExpertName(layer + Markers[k], idx, proj)) == layer + Markers[k]
    ensures PerExpertGroup(ExpertName(layer + Markers[k], idx, proj), ExpertGroupPrefix) == Some(layer + Markers[k])
  {
    var group, name := layer + Markers[k], ExpertName(layer + Markers[k], idx, proj);
    MarkerShape(k);
    hide IsLayer, Markers, ExpertGroupPrefix, Decimal, PerExpertGroup;
    assert WeightSuffix == ".weight";
    var inner := Decimal(idx) + "." + proj;
    CutEnds(group + ".", inner, WeightSuffix);
    assert name == (group + "." + inner) + WeightSuffix;
    assert HasSuffix(name, ".weight");
    GroupPrefixExactly(name, layer, k);
    ExpertsGrouped(group, idx, proj, ExpertGroupPrefix);
  }

  /** A name with a group is that of a weight under a marked layer. */
  lemma GroupIsMarked(name: string) returns (layer: string, k: nat)
    requires ExpertGroupPrefix(name) != ""
    ensures HasSuffix(name, ".weight") && Marked(name, layer, k) && ExpertGroupPrefix(name) == layer + Markers[k]
  {
    hide PrefixFrom, Marked, Markers;
    layer, k := PrefixIsMarked(name, 0);
  }
}
