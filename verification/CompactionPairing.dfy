/** Compaction and pairing: when dropping earlier compactions leaves every call answered. */
module CompactionPairing {
  import opened AgentMessages
  import opened Compaction
  import opened CompactionSplit

  // ----- rules for groups

  /** NamesApart: no answer to other calls goes by the summary's name. SummariesAnswered: a message that calls the
      summary tool is answered by summaries only. */
  datatype Rule = NamesApart | SummariesAnswered

  predicate NoneNamed(ms: seq<Message>) { forall i :: 0 <= i < |ms| ==> ms[i].toolName != SummaryName }

  predicate AllSummaries(ms: seq<Message>) { forall i :: 0 <= i < |ms| ==> IsSummary(ms[i]) }

  predicate GroupObeys(rule: Rule, g: seq<Message>)
    requires g != []
  {
    IsCallMessage(g[0]) ==>
      match rule
      case NamesApart => IsSummaryCall(g[0]) || NoneNamed(g[1..])
      case SummariesAnswered => IsSummaryCall(g[0]) ==> AllSummaries(g[1..])
  }

  /** Every group of a well-paired history obeys the rule. */
  predicate Obeys(rule: Rule, ms: seq<Message>) {
    ms == [] ||
    (GroupLength(ms) <= |ms| && GroupObeys(rule, ms[..GroupLength(ms)]) && Obeys(rule, ms[GroupLength(ms)..]))
  }

  lemma {:induction false} ObeysConcat(rule: Rule, a: seq<Message>, b: seq<Message>)
    requires Obeys(rule, a)
    ensures Obeys(rule, a + b) <==> Obeys(rule, b)
  {
    hide GroupObeys, IsCallMessage;
    if a == [] {
      assert a + b == b;
    } else {
      var n := GroupLength(a);
      assert (a + b)[0] == a[0] && (a + b)[..n] == a[..n] && (a + b)[n..] == a[n..] + b;
      ObeysConcat(rule, a[n..], b);
    }
  }

  lemma ObeysPlain(rule: Rule, m: Message)
    requires IsPlain(m)
    ensures Obeys(rule, [m])
  {
    assert [m][..1] == [m] && [m][1..] == [];
  }

  /** A group that calls nothing named summary, answered under other names. */
  lemma ObeysGroup(rule: Rule, m: Message, answers: seq<Message>)
    requires IsCallMessage(m) && !IsSummaryCall(m) && |answers| == |m.toolCalls| && NoneNamed(answers)
    ensures Obeys(rule, [m] + answers)
  {
    var ms := [m] + answers;
    assert ms[..GroupLength(ms)] == ms && ms[1..] == answers && ms[GroupLength(ms)..] == [];
  }

  lemma ObeysPair(rule: Rule, summary: string, continueTask: bool)
    ensures Obeys(rule, SummaryPair(summary, continueTask))
  {
    PairIsRecognised(summary, continueTask);
    hide SummaryContent, IsSummary, IsSummaryCall;
    var ms := SummaryPair(summary, continueTask);
    assert ms[..2] == ms && ms[2..] == [] && ms[1..] == [ms[1]];
  }

  lemma {:induction false} ObeysSplit(rule: Rule, ms: seq<Message>, i: nat)
    requires WellPaired(ms) && Obeys(rule, ms) && i < |ms| && IsPlain(ms[i])
    ensures Obeys(rule, ms[..i]) && Obeys(rule, ms[i..])
  {
    hide GroupObeys, GroupPaired, IsPlain;
    if i == 0 {
      assert ms[..0] == [] && ms[0..] == ms;
    } else {
      var n := GroupLength(ms);
      PlainStartsGroup(ms, i);
      GroupNotEmpty(ms);
      ObeysSplit(rule, ms[n..], i - n);
      Shift(ms, n, i);
      FirstObeys(rule, ms);
      ObeysConcat(rule, ms[..n], ms[n..i]);
    }
  }

  lemma FirstObeys(rule: Rule, ms: seq<Message>)
    requires ms != [] && Obeys(rule, ms)
    ensures Obeys(rule, ms[..GroupLength(ms)])
  {
    hide GroupObeys, IsCallMessage;
    var n := GroupLength(ms);
    assert ms[..n][0] == ms[0] && ms[..n][..n] == ms[..n] && ms[..n][n..] == [];
  }

  // ----- what dropping compactions does to a group

  lemma PlainGroupKept(m: Message)
    requires IsPlain(m)
    ensures Kept([m]) == [m] || Kept([m]) == []
  {
    hide IsSummary, IsSummaryCall;
    assert [m][..0] == [];
  }

  lemma {:induction false} AnswersKept(ms: seq<Message>)
    requires NoneNamed(ms) && forall i :: 0 <= i < |ms| ==> ms[i].role == Tool
    ensures Kept(ms) == ms
  {
    if ms != [] {
      var init, last := ms[..|ms| - 1], ms[|ms| - 1];
      assert Keeps(last);
      hide Keeps;
      AnswersKept(init);
      assert ms == init + [last];
    }
  }

  lemma {:induction false} AnswersDropped(ms: seq<Message>)
    requires forall i :: 0 <= i < |ms| ==> ms[i].role == Tool
    ensures Kept(ms) == [] <==> AllSummaries(ms)
    ensures forall i :: 0 <= i < |Kept(ms)| ==> Kept(ms)[i].role == Tool
  {
    if ms != [] {
      var init, last := ms[..|ms| - 1], ms[|ms| - 1];
      AnswersDropped(init);
      assert Keeps(last) == !IsSummary(last);
      hide IsSummary, IsSummaryCall, Keeps;
      if AllSummaries(init) && IsSummary(last) {
        forall i | 0 <= i < |ms| ensures IsSummary(ms[i]) {
          assert i < |ms| - 1 ==> ms[i] == init[i];
        }
      }
      if AllSummaries(ms) {
        forall i | 0 <= i < |init| ensures IsSummary(init[i]) { assert init[i] == ms[i]; }
      }
    }
  }

  lemma GroupAnswers(g: seq<Message>)
    requires g != [] && IsCallMessage(g[0]) && |g| == GroupLength(g) && GroupPaired(g)
    ensures forall i :: 0 <= i < |g[1..]| ==> g[1..][i].role == Tool
  {
    forall i | 0 <= i < |g[1..]| ensures g[1..][i].role == Tool {
      assert IsAnswer(g[1..|g|][i], g[0].toolCalls[i]);
    }
  }

  lemma HeadKept(g: seq<Message>)
    requires g != []
    ensures Kept(g) == (if Keeps(g[0]) then [g[0]] else []) + Kept(g[1..])
  {
    hide Keeps;
    KeptConcat([g[0]], g[1..]);
    assert g == [g[0]] + g[1..] && [g[0]][..0] == [];
    assert Kept([g[0]]) == if Keeps(g[0]) then [g[0]] else [];
  }

  /** A group with calls is kept whole, dropped whole, or leaves answers without their calls: the last exactly
      when a call of the summary tool is answered by something that is not a summary. */
  lemma {:induction false} CallGroupKept(g: seq<Message>)
    requires g != [] && IsCallMessage(g[0]) && |g| == GroupLength(g) && GroupPaired(g) && GroupObeys(NamesApart, g)
    ensures GroupObeys(SummariesAnswered, g) ==> Kept(g) == g || Kept(g) == []
    ensures !GroupObeys(SummariesAnswered, g) ==> Kept(g) != [] && Kept(g)[0].role == Tool
  {
    GroupAnswers(g);
    HeadKept(g);
    assert Keeps(g[0]) == !IsSummaryCall(g[0]);
    if IsSummaryCall(g[0]) {
      AnswersDropped(g[1..]);
    } else {
      AnswersKept(g[1..]);
      assert [g[0]] + g[1..] == g;
    }
  }

  lemma StrayToolUnpaired(ms: seq<Message>)
    requires ms != [] && ms[0].role == Tool
    ensures !WellPaired(ms)
  {}

  lemma GroupShape(ms: seq<Message>)
    requires ms != [] && GroupLength(ms) <= |ms|
    ensures var g := ms[..GroupLength(ms)];
      g[0] == ms[0] && GroupLength(g) == |g| && (GroupPaired(g) <==> GroupPaired(ms)) && g + ms[GroupLength(ms)..] == ms
  {
    hide IsAnswer, IsPlain;
    var n := GroupLength(ms);
    assert ms[..n][1..n] == ms[1..n];
  }

  /** Dropping earlier compactions from a well-paired history leaves it well paired exactly when every call of
      the summary tool was answered by a summary. */
  lemma {:induction false} KeptIsPaired(ms: seq<Message>)
    requires WellPaired(ms) && Obeys(NamesApart, ms)
    ensures WellPaired(Kept(ms)) <==> Obeys(SummariesAnswered, ms)
  {
    hide GroupObeys, IsSummaryCall, IsCallMessage, GroupPaired;
    if ms != [] {
      var n := GroupLength(ms);
      var g, rest := ms[..n], ms[n..];
      GroupShape(ms);
      KeptConcat(g, rest);
      KeptIsPaired(rest);
      FirstGroup(ms);
      KeptGroupPaired(g);
      if GroupObeys(SummariesAnswered, g) {
        PairedConcat(Kept(g), Kept(rest));
      } else {
        StrayToolUnpaired(Kept(g) + Kept(rest));
      }
    }
  }

  lemma KeptGroupPaired(g: seq<Message>)
    requires g != [] && |g| == GroupLength(g) && GroupPaired(g) && WellPaired(g) && GroupObeys(NamesApart, g)
    ensures GroupObeys(SummariesAnswered, g) ==> WellPaired(Kept(g))
    ensures !GroupObeys(SummariesAnswered, g) ==> Kept(g) != [] && Kept(g)[0].role == Tool
  {
    if IsCallMessage(g[0]) {
      CallGroupKept(g);
    } else {
      assert g == [g[0]];
      PlainGroupKept(g[0]);
    }
  }
}
