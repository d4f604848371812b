/** create/plan.go: the names of per-expert weights. */
module ExpertNames {
  import opened Text

  datatype Option<+T> = None | Some(value: T)

  // ----- cutting names

  /** The position of the first dot. */
  function FirstDot(s: string): (i: Option<nat>)
    ensures i.Some? ==> i.value < |s| && s[i.value] == '.' && forall k :: 0 <= k < i.value ==> s[k] != '.'
    ensures i.None? ==> forall k :: 0 <= k < |s| ==> s[k] != '.'
  {
    if s == [] then None
    else if s[0] == '.' then Some(0)
    else match FirstDot(s[1..])
      case None => None
      case Some(i) => Some(i + 1)
  }

  lemma FirstDotAt(s: string, i: nat)
    requires i < |s| && s[i] == '.' && forall k :: 0 <= k < i ==> s[k] != '.'
    ensures FirstDot(s) == Some(i)
  {
    assert FirstDot(s).Some?;
  }

  // ----- numbers

  /** The value of a non-empty string of decimal digits. */
  function Digits(s: string): (n: Option<nat>)
  {
    if s == [] then None
    else
      var d := s[|s| - 1] as int - '0' as int;
      if d < 0 || d > 9 then None
      else if |s| == 1 then Some(d)
      else match Digits(s[..|s| - 1])
        case None => None
        case Some(n) => Some(10 * n + d)
  }

  const MaxInt := 0x7fff_ffff_ffff_ffff

  /** strconv.Atoi */
  function Atoi(s: string): Option<int> {
    if s != [] && s[0] == '-' then
      match Digits(s[1..])
      case Some(n) => (var v: int := n; if v <= MaxInt + 1 then Some(-v) else None)
      case None => None
    else
      match Digits(if s != [] && s[0] == '+' then s[1..] else s)
      case Some(n) => if n <= MaxInt then Some(n) else None
      case None => None
  }

  lemma {:induction false} DigitsOfDecimal(n: nat)
    ensures Digits(Decimal(n)) == Some(n)
    ensures forall k :: 0 <= k < |Decimal(n)| ==> '0' <= Decimal(n)[k] <= '9'
  {
    if n >= 10 {
      DigitsOfDecimal(n / 10);
      assert Decimal(n)[..|Decimal(n)| - 1] == Decimal(n / 10);
    }
  }

  lemma AtoiOfDecimal(n: nat)
    requires n <= MaxInt
    ensures Atoi(Decimal(n)) == Some(n)
  {
    DigitsOfDecimal(n);
    assert '0' <= Decimal(n)[0] <= '9';
  }

  // ----- per-expert weights

  const WeightSuffix := ".weight"

  /** The weight of expert idx for a projection of a group. */
  function ExpertName(group: string, idx: nat, proj: string): string {
    group + "." + (Decimal(idx) + "." + proj) + WeightSuffix
  }

  /** parseExpertTensor: the expert index and the projection, or an error. */
  function ParseExpertTensor(group: string, name: string): Option<(nat, string)> {
    if !HasPrefix(name, group + ".") then None
    else
      var rest := TrimPrefix(name, group + ".");
      if !HasSuffix(rest, WeightSuffix) then None
      else
        var inner := TrimSuffix(rest, WeightSuffix);
        match FirstDot(inner)
        case None => None
        case Some(dot) =>
          match Atoi(inner[..dot])
          case None => None
          case Some(idx) => if idx < 0 || Decimal(idx) != inner[..dot] then None else Some((idx, inner[dot + 1..]))
  }

  lemma InnerParts(idx: nat, proj: string)
    ensures var inner := Decimal(idx) + "." + proj;
      FirstDot(inner) == Some(|Decimal(idx)|) && inner[..|Decimal(idx)|] == Decimal(idx)
        && inner[|Decimal(idx)| + 1..] == proj
  {
    hide Decimal;
    var inner := Decimal(idx) + "." + proj;
    DigitsOfDecimal(idx);
    forall k | 0 <= k < |Decimal(idx)| ensures inner[k] != '.' { assert '0' <= Decimal(idx)[k]; }
    FirstDotAt(inner, |Decimal(idx)|);
  }

  lemma CutEnds(a: string, inner: string, b: string)
    ensures var name := a + inner + b;
      HasPrefix(name, a) && TrimPrefix(name, a) == inner + b && HasSuffix(inner + b, b)
        && TrimSuffix(inner + b, b) == inner
  {
    assert a + inner + b == a + (inner + b);
  }

  lemma CutsBack(a: string, name: string, b: string)
    requires HasPrefix(name, a) && HasSuffix(TrimPrefix(name, a), b)
    ensures name == a + TrimSuffix(TrimPrefix(name, a), b) + b
  {
    var rest := TrimPrefix(name, a);
    assert name == a + rest && rest == TrimSuffix(rest, b) + b;
  }

  /** A name parses as expert idx of proj exactly when it is the name of that expert's weight: signs, leading zeros
      and indices beyond the integers are refused. */
  lemma ParsesExactly(group: string, name: string, idx: nat, proj: string)
    ensures ParseExpertTensor(group, name) == Some((idx, proj)) <==>
      name == ExpertName(group, idx, proj) && idx <= MaxInt
  {
    hide Decimal, FirstDot, Atoi, HasPrefix, HasSuffix, TrimPrefix, TrimSuffix, WeightSuffix;
    InnerParts(idx, proj);
    if name == ExpertName(group, idx, proj) && idx <= MaxInt {
      CutEnds(group + ".", Decimal(idx) + "." + proj, WeightSuffix);
      AtoiOfDecimal(idx);
    }
    if ParseExpertTensor(group, name) == Some((idx, proj)) {
      CutsBack(group + ".", name, WeightSuffix);
      var inner := TrimSuffix(TrimPrefix(name, group + "."), WeightSuffix);
      ParsedInner(inner, idx, proj);
    }
  }

  lemma ParsedInner(inner: string, idx: nat, proj: string)
    requires FirstDot(inner).Some?
    requires var dot := FirstDot(inner).value;
      inner[..dot] == Decimal(idx) && inner[dot + 1..] == proj
      && Atoi(inner[..dot]) == Some(idx)
    ensures inner == Decimal(idx) + "." + proj && idx <= MaxInt
  {
    hide Decimal;
    var dot := FirstDot(inner).value;
    assert inner == inner[..dot] + [inner[dot]] + inner[dot + 1..];
  }

  /** Different experts have different names. */
  lemma NamesDistinct(group: string, i: nat, proj: string, j: nat, proj': string)
    ensures ExpertName(group, i, proj) == ExpertName(group, j, proj') <==> i == j && proj == proj'
  {
    hide Decimal, FirstDot, HasPrefix, HasSuffix, WeightSuffix, TrimPrefix, TrimSuffix;
    InnerParts(i, proj);
    InnerParts(j, proj');
    CutEnds(group + ".", Decimal(i) + "." + proj, WeightSuffix);
    CutEnds(group + ".", Decimal(j) + "." + proj', WeightSuffix);
    DigitsOfDecimal(i);
    DigitsOfDecimal(j);
  }

  // ----- which names belong to a group

  /** perExpertGroup, given the group prefix of a name. */
  function PerExpertGroup(name: string, prefixOf: string -> string): Option<string> {
    var group := prefixOf(name);
    if group == "" || !HasPrefix(name, group + ".") then None
    else
      var rest := TrimPrefix(name, group + ".");
      match FirstDot(rest)
      case None => None
      case Some(dot) => if Atoi(rest[..dot]).None? then None else Some(group)
  }

  /** The name goes on after the group with an integer and more. */
  ghost predicate Numbered(group: string, name: string) {
    exists number, rest :: NumberedBy(group, name, number, rest)
  }

  ghost predicate NumberedBy(group: string, name: string, number: string, rest: string) {
    name == group + "." + number + "." + rest && Atoi(number).Some?
  }

  /** Only non-empty strings of digits are numbers. */
  lemma {:induction false} DigitsOnly(s: string)
    ensures Digits(s).Some? <==> s != "" && forall k :: 0 <= k < |s| ==> '0' <= s[k] <= '9'
  {
    if |s| > 1 { DigitsOnly(s[..|s| - 1]); }
  }

  /** An integer is digits, after a sign at most. */
  lemma IntegersOnly(s: string)
    requires Atoi(s).Some?
    ensures s != "" && (s[0] == '-' || s[0] == '+' || '0' <= s[0] <= '9')
    ensures forall k :: 1 <= k < |s| ==> '0' <= s[k] <= '9'
  {
    hide Digits;
    DigitsOnly(s);
    if s != "" {
      DigitsOnly(s[1..]);
      assert forall k :: 1 <= k < |s| ==> s[k] == s[1..][k - 1];
    }
  }

  /** Exactly the names that go on with an integer after their own group belong to it. */
  lemma GroupedExactly(name: string, prefixOf: string -> string)
    ensures PerExpertGroup(name, prefixOf).Some? <==> prefixOf(name) != "" && Numbered(prefixOf(name), name)
    ensures PerExpertGroup(name, prefixOf).Some? ==> PerExpertGroup(name, prefixOf) == Some(prefixOf(name))
  {
    hide Atoi, FirstDot, Numbered;
    var group := prefixOf(name);
    if PerExpertGroup(name, prefixOf).Some? {
      var rest := TrimPrefix(name, group + ".");
      var dot := FirstDot(rest).value;
      assert rest == rest[..dot] + "." + rest[dot + 1..];
      FoundNumber(group, name, rest[..dot], rest[dot + 1..]);
    }
    if group != "" && Numbered(group, name) { NumberFound(group, name); }
  }

  lemma FoundNumber(group: string, name: string, number: string, rest: string)
    requires HasPrefix(name, group + ".") && TrimPrefix(name, group + ".") == number + "." + rest && Atoi(number).Some?
    ensures Numbered(group, name)
  {
    hide Atoi;
    assert group + "." + (number + "." + rest) == group + "." + number + "." + rest;
    assert NumberedBy(group, name, number, rest);
  }

  lemma NumberFound(group: string, name: string)
    requires Numbered(group, name)
    ensures HasPrefix(name, group + ".")
    ensures var rest := TrimPrefix(name, group + "."); FirstDot(rest).Some? && Atoi(rest[..FirstDot(rest).value]).Some?
  {
    hide Atoi, FirstDot;
    var number, rest :| NumberedBy(group, name, number, rest);
    assert name == group + "." + (number + "." + rest);
    assert TrimPrefix(name, group + ".") == number + "." + rest;
    IntegersOnly(number);
    FirstDotAt(number + "." + rest, |number|);
    assert (number + "." + rest)[..|number|] == number;
  }

  /** The weights of a group's experts belong to it. */
  lemma ExpertsGrouped(group: string, idx: nat, proj: string, prefixOf: string -> string)
    requires group != "" && idx <= MaxInt && prefixOf(ExpertName(group, idx, proj)) == group
    ensures PerExpertGroup(ExpertName(group, idx, proj), prefixOf) == Some(group)
  {
    hide Decimal, Atoi, WeightSuffix, PerExpertGroup, Numbered;
    var name := ExpertName(group, idx, proj);
    AtoiOfDecimal(idx);
    assert name == group + "." + Decimal(idx) + "." + (proj + WeightSuffix);
    assert NumberedBy(group, name, Decimal(idx), proj + WeightSuffix);
    IsNumbered(group, name, Decimal(idx), proj + WeightSuffix);
    GroupedExactly(name, prefixOf);
  }

  lemma IsNumbered(group: string, name: string, number: string, rest: string)
    requires NumberedBy(group, name, number, rest)
    ensures Numbered(group, name)
  {
    hide NumberedBy;
  }
}
