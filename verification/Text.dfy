/** Text helpers shared by the agent's history and budget code. Strings are sequences of runes. */
module Text {
  // ----- spaces

  /** unicode.IsSpace */
  predicate IsSpace(c: char) {
    var n := c as int;
    || 0x09 <= n <= 0x0d || n == 0x20 || n == 0x85 || n == 0xa0 || n == 0x1680
    || 0x2000 <= n <= 0x200a || n == 0x2028 || n == 0x2029 || n == 0x202f || n == 0x205f || n == 0x3000
  }

  predicate AllSpace(s: string) {
    forall i :: 0 <= i < |s| ==> IsSpace(s[i])
  }

  function TrimLeft(s: string): (r: string)
    ensures |r| <= |s| && s[|s| - |r|..] == r && AllSpace(s[..|s| - |r|])
    ensures r == [] || !IsSpace(r[0])
  {
    if s != [] && IsSpace(s[0]) then TrimLeft(s[1..]) else s
  }

  function TrimRight(s: string): (r: string)
    ensures r <= s && AllSpace(s[|r|..])
    ensures r == [] || !IsSpace(r[|r| - 1])
  {
    if s != [] && IsSpace(s[|s| - 1]) then TrimRight(s[..|s| - 1]) else s
  }

  /** strings.TrimSpace */
  function TrimSpace(s: string): (r: string)
    ensures |r| <= |s|
  {
    TrimRight(TrimLeft(s))
  }

  /** No space at either end. */
  predicate Trimmed(s: string) {
    s == [] || (!IsSpace(s[0]) && !IsSpace(s[|s| - 1]))
  }

  /** A text is its trimmed middle between runs of spaces. */
  lemma TrimSpaceSplits(s: string) returns (before: string, after: string)
    ensures AllSpace(before) && AllSpace(after)
    ensures s == before + TrimSpace(s) + after && Trimmed(TrimSpace(s))
  {
    hide IsSpace, TrimLeft, TrimRight, AllSpace;
    var left := TrimLeft(s);
    var middle := TrimRight(left);
    before, after := s[..|s| - |left|], left[|middle|..];
    Regroup(before, middle, after);
    assert s == before + left && left == middle + after;
    assert middle != [] ==> middle[0] == left[0];
  }

  lemma Regroup(a: string, b: string, c: string)
    ensures a + b + c == a + (b + c)
  {}

  /** There is only one way to split a text like that. */
  lemma TrimSpaceOf(before: string, middle: string, after: string)
    requires AllSpace(before) && AllSpace(after) && Trimmed(middle)
    ensures TrimSpace(before + middle + after) == middle
  {
    hide IsSpace;
    if middle == [] {
      assert before + middle + after == before + after;
      TrimAllSpace(before + after);
    } else {
      assert before + middle + after == before + (middle + after);
      TrimLeftOf(before, middle + after);
      TrimRightOf(middle, after);
    }
  }

  lemma {:induction false} TrimAllSpace(s: string)
    requires AllSpace(s)
    ensures TrimSpace(s) == []
  {
    hide IsSpace;
    if s != [] { TrimAllSpace(s[1..]); }
  }

  lemma {:induction false} TrimLeftOf(before: string, rest: string)
    requires AllSpace(before) && rest != [] && !IsSpace(rest[0])
    ensures TrimLeft(before + rest) == rest
  {
    hide IsSpace;
    if before == [] {
      assert before + rest == rest;
    } else {
      assert (before + rest)[1..] == before[1..] + rest;
      TrimLeftOf(before[1..], rest);
    }
  }

  lemma {:induction false} TrimRightOf(rest: string, after: string)
    requires AllSpace(after) && rest != [] && !IsSpace(rest[|rest| - 1])
    ensures TrimRight(rest + after) == rest
  {
    hide IsSpace;
    if after == [] {
      assert rest + after == rest;
    } else {
      var s := rest + after;
      assert s[..|s| - 1] == rest + after[..|after| - 1];
      TrimRightOf(rest, after[..|after| - 1]);
    }
  }

  lemma TrimTrimmed(s: string)
    requires Trimmed(s)
    ensures TrimSpace(s) == s
  {
    TrimSpaceOf([], s, []);
    assert [] + s + [] == s;
  }

  // ----- prefixes and suffixes

  predicate HasPrefix(s: string, p: string) { p <= s }

  predicate HasSuffix(s: string, p: string) { |p| <= |s| && s[|s| - |p|..] == p }

  function TrimPrefix(s: string, p: string): string { if HasPrefix(s, p) then s[|p|..] else s }

  function TrimSuffix(s: string, p: string): string { if HasSuffix(s, p) then s[..|s| - |p|] else s }

  // ----- decimal numbers

  function Digit(d: nat): char
    requires d < 10
  {
    ('0' as int + d) as char
  }

  /** fmt's %d on a non-negative number. */
  function Decimal(n: nat): (s: string)
    ensures |s| > 0
  {
    if n < 10 then [Digit(n)] else Decimal(n / 10) + [Digit(n % 10)]
  }

  function Pow10(d: nat): (p: nat)
    ensures p > 0
  {
    if d == 0 then 1 else 10 * Pow10(d - 1)
  }

  /** n has at most d digits exactly when it is below 10 to the d. */
  lemma {:induction false} DecimalLength(n: nat, d: nat)
    requires d > 0
    ensures |Decimal(n)| <= d <==> n < Pow10(d)
  {
    if d == 1 {
      assert Pow10(1) == 10 * Pow10(0);
    } else if n >= 10 {
      DecimalLength(n / 10, d - 1);
    } else {
      assert Pow10(d) == 10 * Pow10(d - 1);
    }
  }

  // ----- token estimates

  /** About four runes to a token, and at least one for any text. */
  function ApproximateTokens(n: int): (t: nat) {
    if n <= 0 then 0 else if (n + 3) / 4 < 1 then 1 else (n + 3) / 4
  }

  /** The estimate is the least number of four-rune tokens that covers the text. */
  lemma TokensCover(n: nat)
    ensures n <= 4 * ApproximateTokens(n) < n + 4
  {}

  function EstimateTokens(text: string): (t: nat)
    ensures 4 * t < |text| + 4
  {
    ApproximateTokens(|TrimSpace(text)|)
  }

  /** Spaces around a text cost nothing, and the rest of it one token for every four runes or part of four. */
  lemma TokensOfText(before: string, text: string, after: string)
    requires AllSpace(before) && AllSpace(after) && Trimmed(text)
    ensures 4 * EstimateTokens(before + text + after) - 4 < |text| <= 4 * EstimateTokens(before + text + after)
  {
    hide IsSpace, TrimSpace, AllSpace;
    TrimSpaceOf(before, text, after);
    TokensCover(|text|);
  }
}
