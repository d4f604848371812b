/** agent/session.go: truncating tool output, and sizing it to a token budget. */
module ToolBudget {
  import opened Text
  import opened AgentMessages

  datatype TruncateConfig = TruncateConfig(
    maxRunes: int, headTail: bool, headPct: nat, subject: string, hint: string, fullOmissionPrefix: string)

  function TruncHint(hint: string): string {
    var h := TrimSpace(hint);
    if h == "" then "" else if HasSuffix(h, ".") then " " + h else " " + h + "."
  }

  const Showing := " truncated: showing first ~"
  const TokensAndLast := " tokens and last ~"
  const TokensThen := " tokens; "
  const Omitted := "omitted ~"
  const TokensEnd := " tokens."

  function TruncMarker(subject: string, head: nat, tail: nat, omitted: nat, headTail: bool, hint: string): string {
    "\n\n[" + subject + Showing + Decimal(ApproximateTokens(head))
    + (if headTail then TokensAndLast + Decimal(ApproximateTokens(tail)) else "") + TokensThen
    + Omitted + Decimal(ApproximateTokens(omitted)) + TokensEnd + TruncHint(hint) + "]"
    + (if headTail then "\n\n" else "")
  }

  function FullOmission(total: nat, prefix: string, hint: string): string {
    prefix + " " + Omitted + Decimal(ApproximateTokens(total)) + TokensEnd + TruncHint(hint) + "]"
  }

  /** The runes kept in front: all of them, or the head's percentage. */
  function HeadRunes(cfg: TruncateConfig): (h: nat)
    requires 0 <= cfg.maxRunes && cfg.headPct <= 100
    ensures h <= cfg.maxRunes
  {
    if cfg.headTail then Percent(cfg.maxRunes, cfg.headPct); cfg.maxRunes * cfg.headPct / 100 else cfg.maxRunes
  }

  lemma Percent(n: nat, pct: nat)
    requires pct <= 100
    ensures 0 <= n * pct / 100 <= n
  {
    assert n * pct <= n * 100;
  }

  function Truncate(content: string, cfg: TruncateConfig): string
    requires cfg.headPct <= 100
  {
    if cfg.maxRunes <= 0 then FullOmission(|content|, cfg.fullOmissionPrefix, cfg.hint)
    else if |content| <= cfg.maxRunes then content
    else
      var head := HeadRunes(cfg);
      var tail := cfg.maxRunes - head;
      content[..head]
      + TruncMarker(cfg.subject, head, tail, |content| - head - tail, cfg.headTail, cfg.hint)
      + content[|content| - tail..]
  }

  /** r is the first `head` and the last `tail` runes of content around the marker. */
  predicate KeepsEnds(r: string, content: string, head: nat, tail: nat, marker: string) {
    && head + tail <= |content| && |r| == head + |marker| + tail
    && r[..head] == content[..head] && r[head..head + |marker|] == marker
    && r[|r| - tail..] == content[|content| - tail..]
  }

  /** Truncated text keeps exactly the rune budget, at the two ends, around the marker. */
  lemma TruncateKeepsEnds(content: string, cfg: TruncateConfig)
    requires cfg.headPct <= 100 && 0 < cfg.maxRunes < |content|
    ensures var head := HeadRunes(cfg);
      var tail := cfg.maxRunes - head;
      KeepsEnds(Truncate(content, cfg), content, head, tail,
                TruncMarker(cfg.subject, head, tail, |content| - cfg.maxRunes, cfg.headTail, cfg.hint))
    ensures !cfg.headTail ==> HeadRunes(cfg) == cfg.maxRunes
  {
    hide TruncMarker;
    var head := HeadRunes(cfg);
    var tail := cfg.maxRunes - head;
    var marker := TruncMarker(cfg.subject, head, tail, |content| - head - tail, cfg.headTail, cfg.hint);
    assert |content| - head - tail == |content| - cfg.maxRunes;
    ThreeParts(content[..head], marker, content[|content| - tail..]);
  }

  lemma ThreeParts(a: string, b: string, c: string)
    ensures var r := a + b + c;
      |r| == |a| + |b| + |c| && r[..|a|] == a && r[|a|..|a| + |b|] == b && r[|r| - |c|..] == c
  {}

  // ----- tool output

  const ToolLabel := "tool output"
  const ToolHint := "U" + "se a narrower command, line range, or search query if more detail is needed" + "."
  const OmissionPrefix := "[tool output truncated: output omitted because the context is full;"

  const MaxToolResultRunes := 60000
  const MarkerReserveTokens := 64

  /** truncateToolResultContentTo */
  function TruncateToolResult(content: string, maxRunes: int): string {
    Truncate(content, TruncateConfig(maxRunes, true, 75, ToolLabel, ToolHint, OmissionPrefix))
  }

  predicate FullyOmitted(content: string) { HasPrefix(content, OmissionPrefix) }

  lemma OmissionIsMarked(content: string, maxRunes: int)
    requires maxRunes <= 0
    ensures FullyOmitted(TruncateToolResult(content, maxRunes))
  {
    hide TruncHint, Decimal, OmissionPrefix;
    var n := Decimal(ApproximateTokens(|content|));
    var r := OmissionPrefix + " " + Omitted + n + TokensEnd + TruncHint(ToolHint) + "]";
    assert r == TruncateToolResult(content, maxRunes);
    assert r[..|OmissionPrefix|] == OmissionPrefix;
  }

  lemma HintShape()
    ensures |ToolHint| == 77 && Trimmed(ToolHint) && HasSuffix(ToolHint, ".")
  {
    assert ToolHint[0] == 'U' && ToolHint[|ToolHint| - 1] == '.';
    assert ToolHint[|ToolHint| - 1..] == ".";
  }

  lemma HintLength()
    ensures |TruncHint(ToolHint)| == 78
  {
    hide TrimSpace, Trimmed, ToolHint;
    HintShape();
    TrimTrimmed(ToolHint);
  }

  /** The tool-output marker is 166 runes and its three numbers. */
  lemma MarkerLength(head: nat, tail: nat, omitted: nat)
    ensures |TruncMarker(ToolLabel, head, tail, omitted, true, ToolHint)| == 166
      + |Decimal(ApproximateTokens(head))| + |Decimal(ApproximateTokens(tail))| + |Decimal(ApproximateTokens(omitted))|
  {
    hide TruncHint, Decimal;
    HintLength();
  }

  /** With at most 60000 runes kept of a text of fewer than 10^77, the marker is at most 252 runes: one token
      less than the reserve. */
  lemma MarkerFits(total: nat, maxRunes: nat)
    requires 0 < maxRunes <= MaxToolResultRunes && maxRunes < total < Pow10(77)
    ensures var head := maxRunes * 75 / 100;
      |TruncMarker(ToolLabel, head, maxRunes - head, total - maxRunes, true, ToolHint)| <= 4 * (MarkerReserveTokens - 1)
  {
    hide TruncMarker;
    var head := maxRunes * 75 / 100;
    MarkerLength(head, maxRunes - head, total - maxRunes);
    NumberLength(head, 5);
    NumberLength(maxRunes - head, 4);
    NumberLength(total - maxRunes, 77);
  }

  lemma NumberLength(n: nat, d: nat)
    requires d > 0 && (n < Pow10(d) || (d == 5 && n <= 45000) || (d == 4 && n <= 15000))
    ensures |Decimal(ApproximateTokens(n))| <= d
  {
    DecimalLength(ApproximateTokens(n), d);
    Powers();
  }

  lemma Powers()
    ensures Pow10(4) == 10000 && Pow10(5) == 100000
  {
    assert Pow10(1) == 10 * Pow10(0);
    assert Pow10(2) == 10 * Pow10(1);
    assert Pow10(3) == 10 * Pow10(2);
  }

  // ----- sizing a tool message

  /** smallContextToolResultLimitRunes; 0 for no special limit. */
  function SmallContextLimit(window: int): nat {
    if 0 < window <= 4096 then 3200 else if 0 < window <= 8192 then 6000 else 0
  }

  function MaxRunes(window: int): (n: nat)
    ensures 0 < n <= MaxToolResultRunes
  {
    if SmallContextLimit(window) > 0 then Min(MaxToolResultRunes, SmallContextLimit(window)) else MaxToolResultRunes
  }

  function Min(a: int, b: int): int { if a < b then a else b }
  function Max(a: int, b: int): int { if a < b then b else a }

  function LimitedToolMessage(name: string, id: string, content: string, maxRunes: int): Message {
    ToolMessage(name, id, TruncateToolResult(content, maxRunes))
  }

  /** Runes left under the budget once the message's frame and the marker's reserve are paid for. */
  function AvailableRunes(name: string, id: string, base: int, budget: int): int {
    (budget - base - MessagesTokens([ToolMessage(name, id, "")]) - MarkerReserveTokens) * 4
  }

  /** toolMessageWithBudget */
  function ToolMessageWithBudget(name: string, id: string, content: string, window: int, base: int,
                                 budget: int): (m: Message) {
    var maxRunes := MaxRunes(window);
    var m := LimitedToolMessage(name, id, content, maxRunes);
    if budget <= 0 || base + MessagesTokens([m]) < budget then m
    else LimitedToolMessage(name, id, content, Min(maxRunes, Max(0, AvailableRunes(name, id, base, budget))))
  }

  /** A tool message costs its frame and its content. */
  lemma FrameAndContent(name: string, id: string, content: string)
    ensures MessagesTokens([ToolMessage(name, id, content)])
         == MessagesTokens([ToolMessage(name, id, "")]) + EstimateTokens(content)
  {
    OneMessageTokens(ToolMessage(name, id, content));
    OneMessageTokens(ToolMessage(name, id, ""));
    assert EstimateTokens("") == 0;
    hide EstimateTokens;
  }

  /** Cut to 4k runes, tool output costs at most k tokens and one less than the reserve. */
  lemma CutContentFits(content: string, maxRunes: int, k: nat)
    requires 0 < maxRunes <= MaxToolResultRunes && maxRunes <= 4 * k && |content| < Pow10(77)
    ensures EstimateTokens(TruncateToolResult(content, maxRunes)) < k + MarkerReserveTokens
  {
    hide TruncMarker, EstimateTokens;
    if maxRunes < |content| {
      TruncateKeepsEnds(content, TruncateConfig(maxRunes, true, 75, ToolLabel, ToolHint, OmissionPrefix));
      MarkerFits(|content|, maxRunes);
    }
  }

  /** Under a positive budget, a tool message either stays below it or is marked as fully omitted, whatever the
      output is: the reserve pays for the marker. */
  lemma BudgetKept(name: string, id: string, content: string, window: int, base: int, budget: int)
    requires budget > 0 && |content| < Pow10(77)
    ensures var m := ToolMessageWithBudget(name, id, content, window, base, budget);
      base + MessagesTokens([m]) < budget || FullyOmitted(m.content)
  {
    hide TruncateToolResult, MessagesTokens, FullyOmitted, AvailableRunes;
    var maxRunes := MaxRunes(window);
    var m := LimitedToolMessage(name, id, content, maxRunes);
    if base + MessagesTokens([m]) >= budget {
      var available := AvailableRunes(name, id, base, budget);
      var cut := Min(maxRunes, Max(0, available));
      if cut <= 0 {
        OmissionIsMarked(content, cut);
      } else {
        CutMessageFits(name, id, content, base, budget, cut);
      }
    }
  }

  lemma CutMessageFits(name: string, id: string, content: string, base: int, budget: int, cut: int)
    requires 0 < cut <= MaxToolResultRunes && cut <= AvailableRunes(name, id, base, budget) && |content| < Pow10(77)
    ensures base + MessagesTokens([LimitedToolMessage(name, id, content, cut)]) < budget
  {
    hide TruncateToolResult, EstimateTokens, MessagesTokens, ToolMessage, Pow10;
    CutContentFits(content, cut, AvailableRunes(name, id, base, budget) / 4);
    FrameAndContent(name, id, TruncateToolResult(content, cut));
  }

  // ----- what a sized message is, by the room it leaves

  /** m answers a call by the text kept to k runes: 3200 in a context of at most 4096 tokens, 6000 in one of at most
      8192 and 60000 in any other; when that does not stay below the budget, the most that leave it 64 tokens beside
      the message's frame. */
  ghost predicate Sized(m: Message, name: string, id: string, text: string, window: int, base: int, budget: int,
                        k: nat) {
    var limit := if 0 < window <= 4096 then 3200 else if 0 < window <= 8192 then 6000 else 60000;
    var uncut := ToolMessage(name, id, TruncateToolResult(text, limit));
    var frame := MessagesTokens([ToolMessage(name, id, "")]);
    && m == ToolMessage(name, id, TruncateToolResult(text, k)) && k <= limit
    && if budget <= 0 || base + MessagesTokens([uncut]) < budget then k == limit
       else
         && (k > 0 ==> base + frame + (k + 3) / 4 + 64 <= budget)
         && (k < limit ==> base + frame + (k + 4) / 4 + 64 > budget)
  }

  ghost predicate SizedToSome(m: Message, name: string, id: string, text: string, window: int, base: int, budget: int)
  {
    exists k: nat :: Sized(m, name, id, text, window, base, budget, k)
  }

  /** toolMessageWithBudget's message is the one sized so, and no other is. */
  lemma BudgetIsSized(m: Message, name: string, id: string, text: string, window: int, base: int, budget: int)
    ensures m == ToolMessageWithBudget(name, id, text, window, base, budget)
      <==> SizedToSome(m, name, id, text, window, base, budget)
  {
    hide TruncateToolResult, MessagesTokens, ToolMessage, SizedToSome;
    var kept := KeptRunes(name, id, text, window, base, budget);
    if m == ToolMessageWithBudget(name, id, text, window, base, budget) {
      KeptAreSized(name, id, text, window, base, budget);
      SizedBy(m, name, id, text, window, base, budget, kept);
    }
    if SizedToSome(m, name, id, text, window, base, budget) {
      var k := SizeOf(m, name, id, text, window, base, budget);
      KeptAreSized(name, id, text, window, base, budget);
      OneSize(name, id, text, window, base, budget, m, k);
    }
  }

  /** The runes toolMessageWithBudget keeps. */
  function KeptRunes(name: string, id: string, content: string, window: int, base: int, budget: int): nat {
    var maxRunes := MaxRunes(window);
    if budget <= 0 || base + MessagesTokens([LimitedToolMessage(name, id, content, maxRunes)]) < budget then maxRunes
    else Min(maxRunes, Max(0, AvailableRunes(name, id, base, budget)))
  }

  lemma KeptAreSized(name: string, id: string, text: string, window: int, base: int, budget: int)
    ensures Sized(ToolMessageWithBudget(name, id, text, window, base, budget), name, id, text, window, base, budget,
                  KeptRunes(name, id, text, window, base, budget))
  {
    hide TruncateToolResult, MessagesTokens, ToolMessage;
  }

  lemma SizedBy(m: Message, name: string, id: string, text: string, window: int, base: int, budget: int, k: nat)
    requires Sized(m, name, id, text, window, base, budget, k)
    ensures SizedToSome(m, name, id, text, window, base, budget)
  {
    hide Sized;
  }

  lemma SizeOf(m: Message, name: string, id: string, text: string, window: int, base: int, budget: int) returns (k: nat)
    requires SizedToSome(m, name, id, text, window, base, budget)
    ensures Sized(m, name, id, text, window, base, budget, k)
  {
    hide Sized;
    k :| Sized(m, name, id, text, window, base, budget, k);
  }

  lemma OneSize(name: string, id: string, text: string, window: int, base: int, budget: int, m: Message, k: nat)
    requires Sized(m, name, id, text, window, base, budget, k)
    ensures m == ToolMessageWithBudget(name, id, text, window, base, budget)
  {
    hide TruncateToolResult, MessagesTokens, ToolMessage;
    assert k == KeptRunes(name, id, text, window, base, budget);
  }

  /** Output within the context's own limit that fits the budget is passed on whole. */
  lemma SmallOutputWhole(name: string, id: string, content: string, window: int, base: int, budget: int)
    requires |content| <= MaxRunes(window)
    requires budget <= 0 || base + MessagesTokens([ToolMessage(name, id, content)]) < budget
    ensures ToolMessageWithBudget(name, id, content, window, base, budget) == ToolMessage(name, id, content)
  {
    hide MessagesTokens;
  }
}
