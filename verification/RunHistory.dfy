/** What every step of a run keeps of its history, and that compaction keeps it too. */
module RunHistory {
  import opened Text
  import opened AgentMessages
  import opened ToolBudget
  import opened Compaction
  import opened CompactionSplit
  import opened CompactionPairing

  /** Well paired, with nothing but earlier compactions called summary. */
  predicate Good(ms: seq<Message>) {
    WellPaired(ms) && Obeys(NamesApart, ms) && Obeys(SummariesAnswered, ms)
  }

  lemma GoodConcat(a: seq<Message>, b: seq<Message>)
    requires Good(a)
    ensures Good(a + b) <==> Good(b)
  {
    hide WellPaired, Obeys;
    PairedConcat(a, b);
    ObeysConcat(NamesApart, a, b);
    ObeysConcat(SummariesAnswered, a, b);
  }

  lemma GoodPlain(m: Message)
    requires IsPlain(m)
    ensures Good([m])
  {
    hide WellPaired, Obeys;
    PairedPlain(m);
    ObeysPlain(NamesApart, m);
    ObeysPlain(SummariesAnswered, m);
  }

  lemma GoodGroup(m: Message, answers: seq<Message>)
    requires IsCallMessage(m) && !IsSummaryCall(m) && Answers(answers, m.toolCalls) && NoneNamed(answers)
    ensures Good([m] + answers)
  {
    hide WellPaired, Obeys, NoneNamed;
    PairedGroup(m, answers);
    ObeysGroup(NamesApart, m, answers);
    ObeysGroup(SummariesAnswered, m, answers);
  }

  lemma GoodPair(summary: string, continueTask: bool)
    ensures Good(SummaryPair(summary, continueTask))
  {
    hide WellPaired, Obeys, SummaryPair;
    PairIsRecognised(summary, continueTask);
    ObeysPair(NamesApart, summary, continueTask);
    ObeysPair(SummariesAnswered, summary, continueTask);
  }

  /** Splitting at a message of its own. */
  lemma GoodSplit(ms: seq<Message>, i: nat)
    requires Good(ms) && i < |ms| && IsPlain(ms[i])
    ensures Good(ms[..i]) && Good(ms[i..])
  {
    hide WellPaired, Obeys, IsPlain;
    PairedSplit(ms, i);
    ObeysSplit(NamesApart, ms, i);
    ObeysSplit(SummariesAnswered, ms, i);
  }

  /** Only answers are tool messages and only assistants call tools. */
  lemma {:induction false} OthersArePlain(ms: seq<Message>, i: nat)
    requires WellPaired(ms) && i < |ms| && ms[i].role != Tool && ms[i].role != Assistant
    ensures IsPlain(ms[i])
  {
    hide GroupPaired;
    var n := GroupLength(ms);
    GroupNotEmpty(ms);
    if i >= n {
      assert ms[n..][i - n] == ms[i];
      OthersArePlain(ms[n..], i - n);
    } else if i > 0 {
      AnswersAreTools(ms, i);
    } else {
      HeadIsPlain(ms);
    }
  }

  lemma HeadIsPlain(ms: seq<Message>)
    requires WellPaired(ms) && ms != [] && ms[0].role != Assistant
    ensures IsPlain(ms[0])
  {}

  /** Leading system messages are groups of their own. */
  lemma {:induction false} GoodAfterPrefix(ms: seq<Message>, n: nat)
    requires Good(ms) && n <= |ms| && forall k :: 0 <= k < n ==> Leading(ms[k])
    ensures Good(ms[..n]) && Good(ms[n..])
  {
    hide IsSummary, IsPlain, WellPaired, Obeys;
    if n == 0 {
      assert ms[..0] == [] && ms[0..] == ms;
      NothingGood();
    } else {
      GoodAfterPrefix(ms, n - 1);
      assert Leading(ms[n - 1]);
      OthersArePlain(ms, n - 1);
      var rest := ms[n - 1..];
      assert rest == [ms[n - 1]] + ms[n..] && ms[..n] == ms[..n - 1] + [ms[n - 1]];
      GoodPlain(ms[n - 1]);
      GoodConcat([ms[n - 1]], ms[n..]);
      GoodConcat(ms[..n - 1], [ms[n - 1]]);
    }
  }

  lemma NothingGood()
    ensures Good([])
  {}

  /** Dropping earlier compactions from a good history leaves a good one. */
  lemma {:induction false} GoodKept(ms: seq<Message>)
    requires Good(ms)
    ensures Good(Kept(ms))
  {
    hide GroupObeys, IsSummaryCall, IsCallMessage, GroupPaired;
    if ms == [] {
      NothingGood();
    } else {
      var n := GroupLength(ms);
      var g, rest := ms[..n], ms[n..];
      GroupShape(ms);
      KeptConcat(g, rest);
      FirstGroup(ms);
      FirstObeys(NamesApart, ms);
      FirstObeys(SummariesAnswered, ms);
      GoodKept(rest);
      KeptGroupGood(g);
      GoodConcat(Kept(g), Kept(rest));
    }
  }

  lemma KeptGroupGood(g: seq<Message>)
    requires g != [] && |g| == GroupLength(g) && GroupPaired(g) && Good(g)
    requires GroupObeys(NamesApart, g) && GroupObeys(SummariesAnswered, g)
    ensures Good(Kept(g))
  {
    hide WellPaired, Obeys, GroupObeys;
    NothingGood();
    if IsCallMessage(g[0]) {
      CallGroupKept(g);
    } else {
      assert g == [g[0]];
      PlainGroupKept(g[0]);
    }
  }

  /** A compacted history is good, and with no turns kept it ends with the summary pair. */
  lemma CompactedGood(ms: seq<Message>, keep: int, r: Split, summary: string, continueTask: bool)
    requires Good(ms) && IsSplit(ms, keep, r) && r.ok
    ensures Good(r.prefix + SummaryPair(summary, continueTask) + r.suffix)
    ensures keep == 0 ==> r.suffix == []
  {
    hide Good, Kept, Leading, LastSummary, SummaryPair, Users, IsPlain;
    GoodAfterPrefix(ms, |r.prefix|);
    GoodKept(ms[|r.prefix|..]);
    GoodPair(summary, continueTask);
    GoodConcat(r.prefix, SummaryPair(summary, continueTask));
    SuffixGood(r.archive, r.suffix);
    GoodConcat(r.prefix + SummaryPair(summary, continueTask), r.suffix);
    if keep == 0 { SuffixOfNone(r.suffix); }
  }

  lemma SuffixGood(archive: seq<Message>, suffix: seq<Message>)
    requires Good(archive + suffix) && (suffix == [] || suffix[0].role == User)
    ensures Good(suffix)
  {
    hide WellPaired, Obeys, IsPlain;
    NothingGood();
    if suffix != [] {
      OthersArePlain(archive + suffix, |archive|);
      GoodSplit(archive + suffix, |archive|);
      assert (archive + suffix)[|archive|..] == suffix;
    }
  }

  lemma SuffixOfNone(suffix: seq<Message>)
    requires Users(suffix) == 0 && (suffix == [] || suffix[0].role == User)
    ensures suffix == []
  {
    assert suffix[0..] == suffix;
    if suffix != [] { UsersFrom(suffix, 0); }
  }

  // ----- sanitizing

  /** sanitizeMessageForRun */
  function Sanitize(m: Message): Message {
    if m.role == Tool then m.(content := TruncateToolResult(m.content, MaxToolResultRunes)) else m
  }

  function SanitizeAll(ms: seq<Message>): (r: seq<Message>)
    ensures |r| == |ms| && forall i :: 0 <= i < |ms| ==> r[i] == Sanitize(ms[i])
  {
    seq(|ms|, i requires 0 <= i < |ms| => Sanitize(ms[i]))
  }

  /** Only tool results of more than 60000 runes are changed: they keep their first 45000 and last 15000 runes. */
  ghost predicate OnlyLongResultsCut(m: Message, now: Message) {
    if m.role != Tool || |m.content| <= 60000 then now == m
    else
      && now == m.(content := now.content) && |now.content| > 60000
      && now.content[..45000] == m.content[..45000]
      && now.content[|now.content| - 15000..] == m.content[|m.content| - 15000..]
  }

  lemma SanitizeCuts(m: Message)
    ensures OnlyLongResultsCut(m, Sanitize(m))
  {
    hide TruncMarker, ToolLabel, ToolHint, OmissionPrefix;
    if m.role == Tool && |m.content| > 60000 {
      var cfg := TruncateConfig(MaxToolResultRunes, true, 75, ToolLabel, ToolHint, OmissionPrefix);
      TruncateKeepsEnds(m.content, cfg);
      MarkerNotEmpty(cfg, 45000, 15000, |m.content| - 60000);
    }
  }

  lemma MarkerNotEmpty(cfg: TruncateConfig, head: nat, tail: nat, omitted: nat)
    ensures TruncMarker(cfg.subject, head, tail, omitted, cfg.headTail, cfg.hint) != ""
  {
    hide Decimal, TruncHint;
  }

  /** Cutting a tool result does not change whether it is a summary. */
  lemma SanitizeSummary(m: Message)
    ensures IsSummary(Sanitize(m)) == IsSummary(m) && IsSummaryCall(Sanitize(m)) == IsSummaryCall(m)
    ensures IsPlain(Sanitize(m)) == IsPlain(m) && IsCallMessage(Sanitize(m)) == IsCallMessage(m)
  {
    hide TruncateToolResult, SummaryPrefix, HasPrefix, NamesSummary;
    CutKeepsPrefix(m.content);
  }

  /** A cut tool result starts as it did, for longer than the summary's heading. */
  lemma CutKeepsPrefix(content: string)
    ensures HasPrefix(TruncateToolResult(content, MaxToolResultRunes), SummaryPrefix)
      == HasPrefix(content, SummaryPrefix)
  {
    hide TruncMarker, SummaryPrefix, HasPrefix, ToolLabel, ToolHint, OmissionPrefix;
    if MaxToolResultRunes < |content| {
      TruncateKeepsEnds(content, TruncateConfig(MaxToolResultRunes, true, 75, ToolLabel, ToolHint, OmissionPrefix));
      PrefixShape();
      SamePrefix(content, TruncateToolResult(content, MaxToolResultRunes), 45000, SummaryPrefix);
    }
  }

  lemma SamePrefix(a: string, b: string, n: nat, p: string)
    requires n <= |a| && n <= |b| && a[..n] == b[..n] && |p| <= n
    ensures HasPrefix(a, p) == HasPrefix(b, p)
  {
    assert a[..|p|] == a[..n][..|p|] && b[..|p|] == b[..n][..|p|];
  }

  /** Sanitizing a good history leaves a good one. */
  lemma {:induction false} SanitizeGood(ms: seq<Message>)
    requires Good(ms)
    ensures Good(SanitizeAll(ms))
  {
    hide IsSummary, IsSummaryCall, IsCallMessage, IsPlain;
    if ms != [] {
      var n, s := GroupLength(ms), SanitizeAll(ms);
      SanitizeSummary(ms[0]);
      SanitizeGood(ms[n..]);
      assert s[n..] == SanitizeAll(ms[n..]);
      SanitizeGroup(ms, s);
    }
  }

  lemma SanitizeGroup(ms: seq<Message>, s: seq<Message>)
    requires ms != [] && GroupLength(ms) <= |ms| && s == SanitizeAll(ms)
    requires GroupPaired(ms) && GroupObeys(NamesApart, ms[..GroupLength(ms)])
      && GroupObeys(SummariesAnswered, ms[..GroupLength(ms)])
    ensures GroupLength(s) == GroupLength(ms)
    ensures GroupPaired(s) && GroupObeys(NamesApart, s[..GroupLength(s)])
      && GroupObeys(SummariesAnswered, s[..GroupLength(s)])
  {
    hide IsSummary, IsSummaryCall, IsCallMessage, IsPlain, TruncateToolResult;
    var n := GroupLength(ms);
    SanitizeSummary(ms[0]);
    assert Sanitize(ms[0]).toolCalls == ms[0].toolCalls;
    var was, now := ms[..n][1..], s[..n][1..];
    assert was == ms[1..n] && now == s[1..n];
    forall i | 0 <= i < n - 1
      ensures now[i].toolName == was[i].toolName && now[i].toolCallID == was[i].toolCallID
      ensures now[i].toolCalls == was[i].toolCalls && now[i].role == was[i].role
      ensures IsSummary(now[i]) == IsSummary(was[i])
    {
      assert now[i] == Sanitize(ms[1 + i]) && was[i] == ms[1 + i];
      SanitizeSummary(ms[1 + i]);
    }
    if IsCallMessage(ms[0]) {
      forall i | 0 <= i < n - 1
        ensures IsAnswer(now[i], s[0].toolCalls[i])
      {
        assert IsAnswer(was[i], ms[0].toolCalls[i]);
      }
    }
  }
}
