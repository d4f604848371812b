/** agent/compactor.go: splitting a history into what is kept, what is archived and the old summary. */
module CompactionSplit {
  import opened Text
  import opened AgentMessages
  import opened Compaction

  // ----- what a split is

  predicate Leading(m: Message) { m.role == System && !IsSummary(m) }

  /** The first n messages are all that lead the history as system messages. */
  ghost predicate IsPrefixLength(ms: seq<Message>, n: nat) {
    n <= |ms| && (forall k :: 0 <= k < n ==> Leading(ms[k])) && (n < |ms| ==> !Leading(ms[n]))
  }

  predicate Keeps(m: Message) { !IsSummary(m) && !IsSummaryCall(m) }

  /** The messages left once earlier compactions are removed. */
  function Kept(ms: seq<Message>): (c: seq<Message>)
    ensures |c| <= |ms|
  {
    if ms == [] then []
    else Kept(ms[..|ms| - 1]) + if Keeps(ms[|ms| - 1]) then [ms[|ms| - 1]] else []
  }

  function LastSummary(ms: seq<Message>): string {
    if ms == [] then ""
    else if IsSummary(ms[|ms| - 1]) then SummaryText(ms[|ms| - 1].content)
    else LastSummary(ms[..|ms| - 1])
  }

  function Users(ms: seq<Message>): nat {
    if ms == [] then 0 else Users(ms[..|ms| - 1]) + if ms[|ms| - 1].role == User then 1 else 0
  }

  const DefaultKeepUserTurns := 3

  /** As many turns as asked for, but at least one user message is left to archive. */
  function KeptTurns(keep: int, users: nat): nat {
    var want := if keep < 0 then DefaultKeepUserTurns else keep;
    if users > want then want else if users > 0 then users - 1 else 0
  }

  datatype Split = Split(
    prefix: seq<Message>, previousSummary: string, archive: seq<Message>, suffix: seq<Message>,
    keptUserTurns: nat, ok: bool)

  ghost predicate IsSplit(ms: seq<Message>, keep: int, r: Split) {
    && IsPrefixLength(ms, |r.prefix|) && r.prefix == ms[..|r.prefix|]
    && r.previousSummary == LastSummary(ms[|r.prefix|..])
    && var c := Kept(ms[|r.prefix|..]);
    && r.keptUserTurns == KeptTurns(keep, Users(c))
    && (r.ok <==> c != [])
    && (if r.ok then IsCut(c, r.archive, r.suffix, r.keptUserTurns) else r.archive == [] && r.suffix == [])
  }

  /** c cut before its last `turns` user messages. */
  ghost predicate IsCut(c: seq<Message>, archive: seq<Message>, suffix: seq<Message>, turns: nat) {
    && archive + suffix == c && archive != [] && Users(suffix) == turns
    && (suffix == [] || suffix[0].role == User)
  }

  // ----- counting and filtering

  lemma {:induction false} KeptConcat(a: seq<Message>, b: seq<Message>)
    ensures Kept(a + b) == Kept(a) + Kept(b)
  {
    hide Keeps;
    if b == [] {
      assert a + b == a;
    } else {
      KeptConcat(a, b[..|b| - 1]);
      assert (a + b)[..|a + b| - 1] == a + b[..|b| - 1];
    }
  }

  lemma {:induction false} UsersConcat(a: seq<Message>, b: seq<Message>)
    ensures Users(a + b) == Users(a) + Users(b)
  {
    if b == [] {
      assert a + b == a;
    } else {
      UsersConcat(a, b[..|b| - 1]);
      assert (a + b)[..|a + b| - 1] == a + b[..|b| - 1];
    }
  }

  lemma UsersFrom(c: seq<Message>, i: nat)
    requires i < |c|
    ensures Users(c[i..]) == Users(c[i + 1..]) + if c[i].role == User then 1 else 0
  {
    UsersConcat([c[i]], c[i + 1..]);
    assert c[i..] == [c[i]] + c[i + 1..];
    assert [c[i]][..0] == [];
  }

  lemma NextMessage(ms: seq<Message>, start: nat, i: nat)
    requires start <= i < |ms|
    ensures Kept(ms[start..i + 1]) == Kept(ms[start..i]) + if Keeps(ms[i]) then [ms[i]] else []
    ensures LastSummary(ms[start..i + 1]) == if IsSummary(ms[i]) then SummaryText(ms[i].content)
      else LastSummary(ms[start..i])
  {
    hide Keeps, IsSummary, SummaryText;
    var next := ms[start..i + 1];
    assert next[..|next| - 1] == ms[start..i] && next[|next| - 1] == ms[i];
  }

  lemma DisjointMarks(m: Message)
    ensures !(IsSummary(m) && IsSummaryCall(m))
  {}

  // ----- the split itself

  /** The loop over the rest of the history: earlier compactions are dropped and the last summary remembered. */
  method CollectCandidates(ms: seq<Message>, start: nat) returns (candidates: seq<Message>, previousSummary: string)
    requires start <= |ms|
    ensures candidates == Kept(ms[start..]) && previousSummary == LastSummary(ms[start..])
  {
    hide IsSummary, IsSummaryCall, SummaryText, Kept, LastSummary;
    candidates, previousSummary := [], "";
    var i := start;
    Nothing(ms, start);
    while i < |ms|
      invariant start <= i <= |ms|
      invariant candidates == Kept(ms[start..i]) && previousSummary == LastSummary(ms[start..i])
    {
      var msg := ms[i];
      NextMessage(ms, start, i);
      DisjointMarks(msg);
      if IsSummary(msg) {
        previousSummary := SummaryText(msg.content);
      } else if IsSummaryCall(msg) {
        if i + 1 < |ms| && IsSummary(ms[i + 1]) {
          previousSummary := SummaryText(ms[i + 1].content);
          NextMessage(ms, start, i + 1);
          i := i + 1;
        }
      } else {
        candidates := candidates + [msg];
      }
      i := i + 1;
    }
    assert ms[start..|ms|] == ms[start..];
  }

  lemma Nothing(ms: seq<Message>, start: nat)
    requires start <= |ms|
    ensures Kept(ms[start..start]) == [] && LastSummary(ms[start..start]) == ""
  {}

  /** Index j is the (j+1)-th user message from the end. */
  ghost predicate TurnIndex(c: seq<Message>, at: int, j: nat) {
    0 <= at < |c| && c[at].role == User && Users(c[at..]) == j + 1
  }

  /** The indexes of the user messages from i on, last first. */
  ghost predicate TurnsFrom(c: seq<Message>, at: seq<int>, i: nat) {
    i <= |c| && |at| == Users(c[i..]) && forall j :: 0 <= j < |at| ==> TurnIndex(c, at[j], j)
  }

  lemma TurnsStep(c: seq<Message>, at: seq<int>, i: nat)
    requires i < |c| && TurnsFrom(c, at, i + 1)
    ensures TurnsFrom(c, if c[i].role == User then at + [i] else at, i)
  {
    hide Users;
    UsersFrom(c, i);
  }

  lemma TurnsEnds(c: seq<Message>, at: seq<int>)
    ensures TurnsFrom(c, [], |c|)
    ensures TurnsFrom(c, at, 0) ==> |at| == Users(c)
  {
    assert c[0..] == c;
  }

  method UserTurnIndexes(c: seq<Message>) returns (at: seq<int>)
    ensures |at| == Users(c) && TurnsFrom(c, at, 0)
  {
    hide TurnsFrom, Users;
    at := [];
    TurnsEnds(c, at);
    var i := |c| - 1;
    while i >= 0
      invariant -1 <= i < |c|
      invariant TurnsFrom(c, at, i + 1)
    {
      TurnsStep(c, at, i);
      if c[i].role == User {
        at := at + [i];
      }
      i := i - 1;
    }
    TurnsEnds(c, at);
  }

  lemma NoUsers(c: seq<Message>)
    ensures Users(c[|c|..]) == 0
  {}

  /** splitCompactionMessages */
  method SplitCompactionMessages(ms: seq<Message>, keepUserTurns: int) returns (r: Split)
    ensures IsSplit(ms, keepUserTurns, r)
    ensures
      var users, want := Users(Kept(ms[|r.prefix|..])), if keepUserTurns < 0 then 3 else keepUserTurns;
      r.keptUserTurns == if users == 0 then 0 else if want < users then want else users - 1
  {
    hide Kept, LastSummary, Users, IsSummary, IsSummaryCall;
    var keep := if keepUserTurns < 0 then DefaultKeepUserTurns else keepUserTurns;
    var start := 0;
    while start < |ms| && ms[start].role == System && !IsSummary(ms[start])
      invariant 0 <= start <= |ms|
      invariant forall k :: 0 <= k < start ==> Leading(ms[k])
    {
      start := start + 1;
    }
    var candidates, previousSummary := CollectCandidates(ms, start);
    var at := UserTurnIndexes(candidates);
    assert IsPrefixLength(ms, start) && ms[..start] == ms[..|ms[..start]|];
    hide IsPrefixLength;
    var kept := keep;
    if |at| <= kept {
      kept := |at| - 1;
    }
    if kept < 0 {
      kept := 0;
    }
    var suffixStart := |candidates|;
    if kept > 0 {
      assert TurnIndex(candidates, at[kept - 1], kept - 1);
      suffixStart := at[kept - 1];
      EarlierUser(candidates, suffixStart, at[|at| - 1], kept, |at|);
    } else {
      NoUsers(candidates);
    }
    if suffixStart <= 0 {
      return Split(ms[..start], previousSummary, [], [], kept, false);
    }
    return Split(ms[..start], previousSummary, candidates[..suffixStart], candidates[suffixStart..], kept, true);
  }

  /** A turn that is not the first leaves something before it. */
  lemma EarlierUser(c: seq<Message>, at: int, first: int, kept: nat, users: nat)
    requires 0 < kept < users && TurnIndex(c, at, kept - 1) && users == Users(c)
    ensures at > 0
  {
    assert c[0..] == c;
  }

  // ----- laws

  /** The split is determined by the history and the number of turns asked for. */
  lemma SplitUnique(ms: seq<Message>, keep: int, a: Split, b: Split)
    requires IsSplit(ms, keep, a) && IsSplit(ms, keep, b)
    ensures a == b
  {
    hide Kept, LastSummary, Users, Leading;
    PrefixUnique(ms, |a.prefix|, |b.prefix|);
    if a.ok {
      CutUnique(a.archive, a.suffix, b.archive, b.suffix);
    }
  }

  lemma PrefixUnique(ms: seq<Message>, m: nat, n: nat)
    requires IsPrefixLength(ms, m) && IsPrefixLength(ms, n)
    ensures m == n
  {}

  lemma CutUnique(a1: seq<Message>, s1: seq<Message>, a2: seq<Message>, s2: seq<Message>)
    requires a1 + s1 == a2 + s2 && Users(s1) == Users(s2)
    requires (s1 == [] || s1[0].role == User) && (s2 == [] || s2[0].role == User)
    ensures a1 == a2 && s1 == s2
  {
    if |s1| < |s2| {
      LongerHasMore(a1, s1, a2, s2);
    } else if |s2| < |s1| {
      LongerHasMore(a2, s2, a1, s1);
    } else {
      assert a1 == (a1 + s1)[..|a1|] && a2 == (a2 + s2)[..|a2|];
      assert s1 == (a1 + s1)[|a1|..] && s2 == (a2 + s2)[|a2|..];
    }
  }

  lemma LongerHasMore(a1: seq<Message>, s1: seq<Message>, a2: seq<Message>, s2: seq<Message>)
    requires a1 + s1 == a2 + s2 && |s1| < |s2| && s2[0].role == User
    ensures Users(s1) < Users(s2)
  {
    var c, k := a1 + s1, |s2| - |s1|;
    assert s2 == c[|a2|..] && s1 == c[|a1|..];
    assert s2 == s2[..k] + s1 by {
      assert s2[k..] == c[|a2| + k..];
    }
    UsersConcat(s2[..k], s1);
    UsersFrom(s2[..k], 0);
    assert s2[..k][0..] == s2[..k];
  }

  /** Compacting and splitting again finds the same prefix and, as the candidates, exactly the suffix; the
      summary reads back if it was trimmed and told to continue, or does not end in the instruction. */
  lemma Resplit(ms: seq<Message>, keep: int, r: Split, summary: string, continueTask: bool, again: int, r': Split)
    requires IsSplit(ms, keep, r) && r.ok
    requires IsSplit(r.prefix + SummaryPair(summary, continueTask) + r.suffix, again, r')
    ensures r'.prefix == r.prefix && (r'.ok <==> r.suffix != []) && (r'.ok ==> r'.archive + r'.suffix == r.suffix)
    ensures Trimmed(summary) ==>
      (r'.previousSummary == summary <==> continueTask || !HasSuffix(summary, ContinueInstruction))
  {
    hide IsSummary, IsSummaryCall, Users, KeptTurns, SummaryPair, SummaryContent, SummaryText, Trimmed;
    var pair := SummaryPair(summary, continueTask);
    var after := r.prefix + pair + r.suffix;
    SuffixIsKept(ms[|r.prefix|..], r.archive, r.suffix);
    PairEndsPrefix(ms, r, summary, continueTask);
    PrefixUnique(after, |r.prefix|, |r'.prefix|);
    assert after[|r.prefix|..] == pair + r.suffix;
    KeptConcat(pair, r.suffix);
    PairDropped(summary, continueTask);
    KeptOnly(r.suffix);
    SummaryBefore(pair, r.suffix);
    if Trimmed(summary) {
      TrimTrimmed(summary);
      SummaryTextReads(summary, continueTask);
    }
  }

  lemma PairEndsPrefix(ms: seq<Message>, r: Split, summary: string, continueTask: bool)
    requires IsPrefixLength(ms, |r.prefix|) && r.prefix == ms[..|r.prefix|]
    ensures IsPrefixLength(r.prefix + SummaryPair(summary, continueTask) + r.suffix, |r.prefix|)
    ensures (r.prefix + SummaryPair(summary, continueTask) + r.suffix)[..|r.prefix|] == r.prefix
  {
    hide IsSummary, SummaryContent;
    var after := r.prefix + SummaryPair(summary, continueTask) + r.suffix;
    assert after[|r.prefix|].role == Assistant;
  }

  lemma {:induction false} KeptAll(c: seq<Message>, i: nat)
    requires i < |Kept(c)|
    ensures Keeps(Kept(c)[i])
  {
    hide Keeps;
    if c != [] && i < |Kept(c[..|c| - 1])| { KeptAll(c[..|c| - 1], i); }
  }

  ghost predicate AllKept(ms: seq<Message>) {
    forall i :: 0 <= i < |ms| ==> Keeps(ms[i])
  }

  lemma SuffixIsKept(rest: seq<Message>, archive: seq<Message>, suffix: seq<Message>)
    requires archive + suffix == Kept(rest)
    ensures AllKept(archive) && AllKept(suffix)
  {
    hide Keeps, Kept;
    forall i | 0 <= i < |Kept(rest)| ensures Keeps(Kept(rest)[i]) { KeptAll(rest, i); }
    assert forall i :: 0 <= i < |archive| ==> archive[i] == Kept(rest)[i];
    assert forall i :: 0 <= i < |suffix| ==> suffix[i] == Kept(rest)[|archive| + i];
  }

  lemma {:induction false} KeptOnly(c: seq<Message>)
    requires AllKept(c)
    ensures Kept(c) == c && LastSummary(c) == ""
  {
    if c != [] {
      KeptOnly(c[..|c| - 1]);
      hide IsSummary, IsSummaryCall;
      assert Keeps(c[|c| - 1]);
    }
  }

  lemma {:induction false} SummaryBefore(a: seq<Message>, b: seq<Message>)
    requires AllKept(b)
    ensures LastSummary(a + b) == LastSummary(a)
  {
    if b == [] {
      assert a + b == a;
    } else {
      SummaryBefore(a, b[..|b| - 1]);
      hide IsSummary, IsSummaryCall;
      assert Keeps(b[|b| - 1]);
      assert (a + b)[..|a + b| - 1] == a + b[..|b| - 1];
    }
  }

  lemma PairDropped(summary: string, continueTask: bool)
    ensures Kept(SummaryPair(summary, continueTask)) == []
    ensures LastSummary(SummaryPair(summary, continueTask)) == SummaryText(SummaryContent(summary, continueTask))
  {
    PairIsRecognised(summary, continueTask);
    hide SummaryContent, IsSummary, IsSummaryCall, SummaryText;
    var pair := SummaryPair(summary, continueTask);
    assert pair[..1] == [pair[0]] && [pair[0]][..0] == [];
    assert Kept([pair[0]]) == [];
  }
}
