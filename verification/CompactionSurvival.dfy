/** Exactly when a compacted history is still well paired. */
module CompactionSurvival {
  import opened AgentMessages
  import opened Compaction
  import opened CompactionSplit
  import opened CompactionPairing
  import opened RunHistory

  // ----- where the kept turns start

  predicate KeptUser(m: Message) { m.role == User && Keeps(m) }

  /** Where the last `turns` user messages that are no summaries start; the end of the history for no turns. */
  function TurnStart(ms: seq<Message>, turns: nat): (s: nat)
    ensures s <= |ms|
  {
    if turns == 0 || ms == [] then |ms|
    else
      var init := ms[..|ms| - 1];
      TurnStart(init, if KeptUser(ms[|ms| - 1]) then turns - 1 else turns)
  }

  /** Cut at s, the part of the history from s on holds exactly the last turns. */
  ghost predicate CutAtTurn(ms: seq<Message>, turns: nat, s: nat) {
    && s <= |ms| && Users(Kept(ms[s..])) == turns && Kept(ms) == Kept(ms[..s]) + Kept(ms[s..])
    && (turns == 0 ==> s == |ms|)
    && (turns > 0 ==> s < |ms| && ms[s].role == User && Kept(ms[s..]) != [] && Kept(ms[s..])[0] == ms[s])
  }

  lemma {:induction false} TurnsKept(ms: seq<Message>, turns: nat)
    requires turns <= Users(Kept(ms))
    ensures CutAtTurn(ms, turns, TurnStart(ms, turns))
  {
    hide Keeps, Kept, Users, CutAtTurn;
    if turns == 0 {
      CutAtEnd(ms);
    } else {
      NoTurns(ms);
      var init, last := ms[..|ms| - 1], ms[|ms| - 1];
      assert ms == init + [last];
      OneMoreMessage(init, last, turns);
      TurnsKept(init, if KeptUser(last) then turns - 1 else turns);
      CutOneMore(init, last, turns, TurnStart(ms, turns));
    }
  }

  lemma NoTurns(ms: seq<Message>)
    ensures ms == [] ==> Users(Kept(ms)) == 0
  {}

  lemma CutAtEnd(ms: seq<Message>)
    ensures CutAtTurn(ms, 0, |ms|)
  {
    hide Keeps;
    assert ms[..|ms|] == ms && ms[|ms|..] == [];
  }

  lemma OneMoreMessage(init: seq<Message>, last: Message, turns: nat)
    requires 0 < turns <= Users(Kept(init + [last]))
    ensures (if KeptUser(last) then turns - 1 else turns) <= Users(Kept(init))
  {
    hide Keeps, Kept, Users;
    KeptConcat(init, [last]);
    KeptOne(last);
    UsersConcat(Kept(init), Kept([last]));
    UsersOne(last);
    UsersNone();
  }

  lemma UsersNone()
    ensures Users([]) == 0 && Kept([]) == []
  {}

  lemma CutOneMore(init: seq<Message>, last: Message, turns: nat, s: nat)
    requires turns > 0 && CutAtTurn(init, if KeptUser(last) then turns - 1 else turns, s)
    ensures CutAtTurn(init + [last], turns, s)
  {
    hide Keeps, Kept, Users;
    var ms := init + [last];
    assert ms[..s] == init[..s] && ms[s..] == init[s..] + [last];
    KeptConcat(init[s..], [last]);
    KeptConcat(init, [last]);
    KeptOne(last);
    UsersConcat(Kept(init[s..]), Kept([last]));
    UsersOne(last);
    UsersNone();
  }

  lemma UsersOne(m: Message)
    ensures Users([m]) == if m.role == User then 1 else 0
  {
    assert [m][..0] == [];
  }

  lemma KeptOne(m: Message)
    ensures Kept([m]) == if Keeps(m) then [m] else []
  {
    hide Keeps;
    assert [m][..0] == [];
  }

  lemma {:induction false} PrefixKept(prefix: seq<Message>)
    requires forall k :: 0 <= k < |prefix| ==> Leading(prefix[k])
    ensures Kept(prefix) == prefix && Users(prefix) == 0
  {
    hide IsSummary;
    if prefix != [] {
      PrefixKept(prefix[..|prefix| - 1]);
      assert Leading(prefix[|prefix| - 1]);
    }
  }

  lemma KeepsAtMost(keep: int, users: nat)
    ensures KeptTurns(keep, users) <= users
  {}

  /** A split cuts what is left of the whole history, the prefix being left. */
  lemma SplitCutsKept(ms: seq<Message>, keep: int, r: Split)
    requires IsSplit(ms, keep, r) && r.ok
    ensures Kept(ms) == (r.prefix + r.archive) + r.suffix
    ensures Users(r.suffix) == r.keptUserTurns <= Users(Kept(ms)) && (r.suffix == [] || r.suffix[0].role == User)
  {
    hide Kept, Users, LastSummary, Leading, KeptTurns;
    var rest := ms[|r.prefix|..];
    assert ms == r.prefix + rest;
    KeptConcat(r.prefix, rest);
    PrefixKept(r.prefix);
    UsersConcat(r.prefix, Kept(rest));
    KeepsAtMost(keep, Users(Kept(rest)));
    assert r.prefix + (r.archive + r.suffix) == (r.prefix + r.archive) + r.suffix;
  }

  /** The suffix is what is left of the history from the first kept turn on. */
  lemma SuffixFromTurn(ms: seq<Message>, keep: int, r: Split)
    requires IsSplit(ms, keep, r) && r.ok
    ensures r.suffix == Kept(ms[TurnStart(ms, r.keptUserTurns)..])
    ensures TurnStart(ms, r.keptUserTurns) < |ms| ==> ms[TurnStart(ms, r.keptUserTurns)].role == User
  {
    hide Kept, Users, IsSplit, TurnStart;
    var turns := r.keptUserTurns;
    var s := TurnStart(ms, turns);
    SplitCutsKept(ms, keep, r);
    TurnsKept(ms, turns);
    UsersNone();
    assert turns == 0 ==> ms[s..] == [];
    CutUnique(r.prefix + r.archive, r.suffix, Kept(ms[..s]), Kept(ms[s..]));
  }

  // ----- survival

  lemma {:induction false} AllPlainPaired(ms: seq<Message>)
    requires forall i :: 0 <= i < |ms| ==> IsPlain(ms[i])
    ensures WellPaired(ms)
  {
    hide IsPlain;
    if ms != [] {
      AllPlainPaired(ms[1..]);
      PairedPlain(ms[0]);
      PairedConcat([ms[0]], ms[1..]);
      assert [ms[0]] + ms[1..] == ms;
    }
  }

  lemma PrefixPaired(ms: seq<Message>, n: nat)
    requires WellPaired(ms) && n <= |ms| && forall k :: 0 <= k < n ==> Leading(ms[k])
    ensures WellPaired(ms[..n])
  {
    hide WellPaired, IsPlain, IsSummary;
    forall k | 0 <= k < n ensures IsPlain(ms[..n][k]) {
      assert Leading(ms[k]);
      OthersArePlain(ms, k);
    }
    AllPlainPaired(ms[..n]);
  }

  /** A compacted history is well paired exactly when, from the first kept turn on, every call of the summary tool was
      answered by summaries: what was archived does not matter. */
  lemma CompactionSurvives(ms: seq<Message>, keep: int, r: Split, summary: string, continueTask: bool)
    requires WellPaired(ms) && Obeys(NamesApart, ms) && IsSplit(ms, keep, r) && r.ok
    ensures WellPaired(r.prefix + SummaryPair(summary, continueTask) + r.suffix)
      <==> Obeys(SummariesAnswered, ms[TurnStart(ms, r.keptUserTurns)..])
  {
    hide WellPaired, Obeys, Kept, Users, LastSummary, Leading, SummaryPair, TurnStart, IsPlain;
    var s := TurnStart(ms, r.keptUserTurns);
    SuffixFromTurn(ms, keep, r);
    PrefixPaired(ms, |r.prefix|);
    PairIsRecognised(summary, continueTask);
    PairedConcat(r.prefix, SummaryPair(summary, continueTask));
    PairedConcat(r.prefix + SummaryPair(summary, continueTask), r.suffix);
    if s < |ms| {
      OthersArePlain(ms, s);
      PairedSplit(ms, s);
      ObeysSplit(NamesApart, ms, s);
    } else {
      assert ms[s..] == [];
      NothingBroken();
    }
    KeptIsPaired(ms[s..]);
  }

  lemma NothingBroken()
    ensures WellPaired([]) && Obeys(NamesApart, []) && Obeys(SummariesAnswered, [])
  {}

  /** A message whose calls are answered under names of the batch keeps names apart: so does every batch a run answers,
      whatever its tools are called. */
  lemma BatchNamesApart(base: seq<Message>, m: Message, answers: seq<Message>)
    requires Obeys(NamesApart, base) && IsCallMessage(m) && |answers| == |m.toolCalls|
    requires forall i :: 0 <= i < |answers| ==> exists j ::
      0 <= j < |m.toolCalls| && answers[i].toolName == m.toolCalls[j].name
    ensures Obeys(NamesApart, base + ([m] + answers))
  {
    var g := [m] + answers;
    if !IsSummaryCall(m) {
      forall i | 0 <= i < |answers| ensures answers[i].toolName != SummaryName {
        var j :| 0 <= j < |m.toolCalls| && answers[i].toolName == m.toolCalls[j].name;
      }
    }
    assert g[..GroupLength(g)] == g && g[1..] == answers && g[GroupLength(g)..] == [];
    ObeysConcat(NamesApart, base, g);
  }

  // ----- a history that does not survive

  const FirstUser := Message(User, "a", "", "", "", [])
  const SecondUser := Message(User, "b", "", "", "", [])
  const RealCall := Message(Assistant, "", "", "", "", [ToolCall("1", "summary", "{}")])
  const RealAnswer := ToolMessage("summary", "1", "report")

  /** A real call of a tool named summary in the last kept turn: compacting drops the call and keeps its answer. */
  lemma RealSummaryCallUnpaired(summary: string, continueTask: bool)
    ensures var ms := [FirstUser, SecondUser, RealCall, RealAnswer];
      var r := Split([], "", [FirstUser], [SecondUser, RealAnswer], 1, true);
      && WellPaired(ms) && Obeys(NamesApart, ms) && IsSplit(ms, 1, r)
      && !WellPaired(r.prefix + SummaryPair(summary, continueTask) + r.suffix)
  {
    var ms := [FirstUser, SecondUser, RealCall, RealAnswer];
    var r := Split([], "", [FirstUser], [SecondUser, RealAnswer], 1, true);
    RealCallHistory();
    RealCallSplit();
    TurnOfExample();
    assert ms[1..] == [SecondUser] + [RealCall, RealAnswer];
    CompactionSurvives(ms, 1, r, summary, continueTask);
  }

  lemma RealCallMarks()
    ensures IsSummaryCall(RealCall) && !IsSummary(RealCall) && !IsSummary(RealAnswer) && !IsSummaryCall(RealAnswer)
    ensures !IsSummary(FirstUser) && !IsSummary(SecondUser) && !IsSummaryCall(FirstUser) && !IsSummaryCall(SecondUser)
  {
    assert RealCall.toolCalls[0].name == SummaryName;
    assert RealAnswer.content[0] == 'r' && SummaryPrefix[0] == 'C' && FirstUser.content == "a"
      && SecondUser.content == "b";
  }

  lemma RealCallHistory()
    ensures var ms := [FirstUser, SecondUser, RealCall, RealAnswer];
      WellPaired(ms) && Obeys(NamesApart, ms) && !Obeys(SummariesAnswered, [SecondUser] + [RealCall, RealAnswer])
  {
    hide IsSummary;
    var ms := [FirstUser, SecondUser, RealCall, RealAnswer];
    RealCallMarks();
    PairedGroup(RealCall, [RealAnswer]);
    PairedPlain(FirstUser);
    PairedPlain(SecondUser);
    var group := [RealCall, RealAnswer];
    assert group == [RealCall] + [RealAnswer] && group[1..] == [RealAnswer] && group[..2] == group && group[2..] == [];
    PairedConcat([SecondUser], group);
    PairedConcat([FirstUser], [SecondUser] + group);
    assert !AllSummaries([RealAnswer]) by { assert !IsSummary([RealAnswer][0]); }
    forall rule: Rule
      ensures Obeys(rule, [SecondUser]) && Obeys(rule, [FirstUser])
    {
      ObeysPlain(rule, SecondUser);
      ObeysPlain(rule, FirstUser);
    }
    ObeysConcat(NamesApart, [SecondUser], group);
    ObeysConcat(SummariesAnswered, [SecondUser], group);
    ObeysConcat(NamesApart, [FirstUser], [SecondUser] + group);
    assert ms == [FirstUser] + ([SecondUser] + group);
  }

  lemma KeptOfExample()
    ensures var ms := [FirstUser, SecondUser, RealCall, RealAnswer];
      Kept(ms) == [FirstUser, SecondUser, RealAnswer] && LastSummary(ms) == ""
  {
    hide IsSummary, IsSummaryCall;
    RealCallMarks();
    var ms := [FirstUser, SecondUser, RealCall, RealAnswer];
    assert ms[..3] == [FirstUser, SecondUser, RealCall] && ms[..3][..2] == [FirstUser, SecondUser];
    assert [FirstUser, SecondUser][..1] == [FirstUser] && [FirstUser][..0] == [];
    assert Kept([FirstUser]) == [FirstUser] && LastSummary([FirstUser]) == "";
    assert Kept([FirstUser, SecondUser]) == [FirstUser, SecondUser] && LastSummary([FirstUser, SecondUser]) == "";
  }

  lemma RealCallSplit()
    ensures IsSplit([FirstUser, SecondUser, RealCall, RealAnswer], 1,
                    Split([], "", [FirstUser], [SecondUser, RealAnswer], 1, true))
  {
    hide Kept, LastSummary;
    var ms := [FirstUser, SecondUser, RealCall, RealAnswer];
    KeptOfExample();
    assert ms[0..] == ms;
    var c := [FirstUser, SecondUser, RealAnswer];
    assert c[..2] == [FirstUser, SecondUser] && [FirstUser, SecondUser][..1] == [FirstUser] && [FirstUser][..0] == [];
    assert Users([FirstUser]) == 1 && Users([FirstUser, SecondUser]) == 2 && Users(c) == 2;
    assert [SecondUser, RealAnswer][..1] == [SecondUser] && [SecondUser][..0] == [];
    assert Users([SecondUser]) == 1 && Users([SecondUser, RealAnswer]) == 1;
    assert [FirstUser] + [SecondUser, RealAnswer] == c;
  }

  lemma TurnOfExample()
    ensures TurnStart([FirstUser, SecondUser, RealCall, RealAnswer], 1) == 1
  {
    hide IsSummary, IsSummaryCall;
    RealCallMarks();
    var ms := [FirstUser, SecondUser, RealCall, RealAnswer];
    assert ms[..3] == [FirstUser, SecondUser, RealCall] && ms[..3][..2] == [FirstUser, SecondUser]
      && [FirstUser, SecondUser][..1] == [FirstUser];
    assert TurnStart([FirstUser], 0) == 1;
    assert TurnStart([FirstUser, SecondUser], 1) == 1;
    assert TurnStart([FirstUser, SecondUser, RealCall], 1) == 1;
  }
}
