/** When a stream, put back together, is the one-shot response. */
module StreamRefinement {
  import opened AnthropicStream
  import opened StreamGrammar
  import opened StreamContent

  // ----- a client's view of the events

  function Begun(kind: BlockKind): Block {
    match kind
    case ThinkingBlock => Thinking("")
    case TextBlock => Text("")
    case ToolBlock(id, name) => ToolUse(id, name, "")
  }

  function Grown(b: Block, d: Delta): Block {
    match (b, d)
    case (Thinking(t), ThinkingDelta(x)) => Thinking(t + x)
    case (Text(t), TextDelta(x)) => Text(t + x)
    case (ToolUse(id, name, input), JsonDelta(x)) => ToolUse(id, name, input + x)
    case _ => b
  }

  function Fold(bs: seq<Block>, e: StreamEvent): seq<Block> {
    match e
    case BlockStart(_, kind) => bs + [Begun(kind)]
    case BlockDelta(_, d) => if bs == [] then bs else bs[..|bs| - 1] + [Grown(bs[|bs| - 1], d)]
    case _ => bs
  }

  function FoldAll(bs: seq<Block>, es: seq<StreamEvent>): seq<Block> {
    if es == [] then bs else Fold(FoldAll(bs, es[..|es| - 1]), es[|es| - 1])
  }

  lemma {:induction false} FoldConcat(bs: seq<Block>, a: seq<StreamEvent>, b: seq<StreamEvent>)
    ensures FoldAll(bs, a + b) == FoldAll(FoldAll(bs, a), b)
  {
    hide Fold;
    if b == [] {
      assert a + b == a;
    } else {
      FoldConcat(bs, a, b[..|b| - 1]);
      assert (a + b)[..|a + b| - 1] == a + b[..|b| - 1];
    }
  }

  lemma FoldOne(bs: seq<Block>, e: StreamEvent)
    ensures FoldAll(bs, [e]) == Fold(bs, e) && FoldAll(bs, []) == bs
  {
    hide Fold;
    assert [e][..0] == [] && FoldAll(bs, []) == bs;
  }

  // ----- what each step does to the blocks

  /** The open block, if any, is the last one. */
  ghost predicate LastOpen(c: Conv, bs: seq<Block>) {
    && Valid(c)
    && (c.textStarted ==> bs != [] && bs[|bs| - 1].Text?)
    && (ThinkingOpen(c) ==> bs != [] && bs[|bs| - 1].Thinking?)
  }

  function ThinkingEffect(c: Conv, bs: seq<Block>, thinking: string): seq<Block>
    requires LastOpen(c, bs)
  {
    if thinking == "" || c.thinkingDone then bs
    else if c.thinkingStarted then bs[..|bs| - 1] + [Thinking(bs[|bs| - 1].text + thinking)]
    else bs + [Thinking(thinking)]
  }

  function TextEffect(c: Conv, bs: seq<Block>, content: string): seq<Block>
    requires LastOpen(c, bs)
  {
    if content == "" then bs
    else if c.textStarted then bs[..|bs| - 1] + [Text(bs[|bs| - 1].text + content)]
    else bs + [Text(content)]
  }

  function ToolEffect(c: Conv, bs: seq<Block>, call: ToolCall, marshal: string -> Option<string>): seq<Block> {
    if GetsThrough(c, call, marshal) then bs + [ToolUse(call.id, call.name, marshal(call.args).value)] else bs
  }

  lemma ClosingFolds(c: Conv, bs: seq<Block>)
    ensures FoldAll(bs, CloseText(c).1) == bs && FoldAll(bs, CloseThinking(c).1) == bs
  {
    FoldOne(bs, BlockStop(c.index));
  }

  /** A block begun and grown once. */
  lemma BegunAndGrown(bs: seq<Block>, i: nat, kind: BlockKind, d: Delta)
    ensures FoldAll(bs, [BlockStart(i, kind)] + [BlockDelta(i, d)]) == bs + [Grown(Begun(kind), d)]
  {
    FoldConcat(bs, [BlockStart(i, kind)], [BlockDelta(i, d)]);
    FoldOne(bs, BlockStart(i, kind));
    FoldOne(bs + [Begun(kind)], BlockDelta(i, d));
    assert (bs + [Begun(kind)])[..|bs|] == bs;
  }

  lemma ThinkingFolds(c: Conv, bs: seq<Block>, thinking: string)
    requires LastOpen(c, bs)
    ensures var (c', es) := ThinkingStep(c, thinking);
      FoldAll(bs, es) == ThinkingEffect(c, bs, thinking) && LastOpen(c', ThinkingEffect(c, bs, thinking))
  {
    FoldOne(bs, MessageStop);
    if thinking != "" && !c.thinkingDone {
      var (c1, e1) := CloseText(c);
      ClosingFolds(c, bs);
      var delta := BlockDelta(c1.index, ThinkingDelta(thinking));
      var start: seq<StreamEvent> := if c1.thinkingStarted then [] else [BlockStart(c1.index, ThinkingBlock)];
      Cat(e1, start, [delta]);
      FoldConcat(bs, e1, start + [delta]);
      if c1.thinkingStarted {
        FoldOne(bs, delta);
        assert [] + [delta] == [delta];
      } else {
        BegunAndGrown(bs, c1.index, ThinkingBlock, ThinkingDelta(thinking));
        assert "" + thinking == thinking;
      }
    }
  }

  lemma TextFolds(c: Conv, bs: seq<Block>, content: string)
    requires LastOpen(c, bs)
    ensures var (c', es) := TextStep(c, content);
      FoldAll(bs, es) == TextEffect(c, bs, content) && LastOpen(c', TextEffect(c, bs, content))
  {
    FoldOne(bs, MessageStop);
    if content != "" {
      var (c1, e1) := CloseThinking(c);
      ClosingFolds(c, bs);
      var delta := BlockDelta(c1.index, TextDelta(content));
      var start: seq<StreamEvent> := if c1.textStarted then [] else [BlockStart(c1.index, TextBlock)];
      Cat(e1, start, [delta]);
      FoldConcat(bs, e1, start + [delta]);
      if c1.textStarted {
        FoldOne(bs, delta);
        assert [] + [delta] == [delta];
      } else {
        BegunAndGrown(bs, c1.index, TextBlock, TextDelta(content));
        assert "" + content == content;
      }
    }
  }

  lemma ToolFolds(c: Conv, bs: seq<Block>, call: ToolCall, marshal: string -> Option<string>)
    requires LastOpen(c, bs)
    ensures var (c', es) := ToolStep(c, call, marshal);
      FoldAll(bs, es) == ToolEffect(c, bs, call, marshal) && LastOpen(c', ToolEffect(c, bs, call, marshal))
  {
    FoldOne(bs, MessageStop);
    if call.id !in c.sent {
      var (c1, e1) := CloseThinking(c);
      var (c2, e2) := CloseText(c1);
      ClosingFolds(c, bs);
      ClosingFolds(c1, bs);
      FoldConcat(bs, e1, e2);
      if marshal(call.args).Some? {
        var json := marshal(call.args).value;
        FoldConcat(bs, e1 + e2, ToolEvents(c2.index, call, json));
        ToolEventsFold(bs, c2.index, call, json);
      }
    }
  }

  lemma ToolEventsFold(bs: seq<Block>, i: nat, call: ToolCall, json: string)
    ensures FoldAll(bs, ToolEvents(i, call, json)) == bs + [ToolUse(call.id, call.name, json)]
  {
    var start, delta := BlockStart(i, ToolBlock(call.id, call.name)), BlockDelta(i, JsonDelta(json));
    BegunAndGrown(bs, i, ToolBlock(call.id, call.name), JsonDelta(json));
    FoldConcat(bs, [start] + [delta], [BlockStop(i)]);
    FoldOne(bs + [ToolUse(call.id, call.name, json)], BlockStop(i));
    assert [start] + [delta] + [BlockStop(i)] == ToolEvents(i, call, json);
    assert "" + json == json;
  }

  lemma EndsFold(c: Conv, bs: seq<Block>, r: Response)
    ensures FoldAll(bs, BeginStep(c, r.metrics).1) == bs && FoldAll(bs, DoneStep(c, r).1) == bs
  {
    FoldOne(bs, MessageStart(StartUsage(c, r.metrics)));
    if r.done {
      var delta := MessageDelta(MapStopReason(r.doneReason, |c.sent| > 0), UsageFromMetrics(r.metrics));
      var stop: seq<StreamEvent> := if c.textStarted || ThinkingOpen(c) then [BlockStop(c.index)] else [];
      FoldOne(bs, BlockStop(c.index));
      FoldOne(bs, delta);
      FoldOne(bs, MessageStop);
      FoldConcat(bs, [delta], [MessageStop]);
      assert [delta] + [MessageStop] == [delta, MessageStop];
      FoldConcat(bs, stop, [delta, MessageStop]);
    }
  }

  // ----- agreeing with the one-shot response, or beyond repair

  function Ids(calls: seq<ToolCall>): set<string> {
    set c | c in calls :: c.id
  }

  predicate Marshals(calls: seq<ToolCall>, marshal: string -> Option<string>) {
    forall i :: 0 <= i < |calls| ==> marshal(calls[i].args).Some?
  }

  /** The calls with their arguments as the JSON they marshal to. */
  function WithJson(calls: seq<ToolCall>, marshal: string -> Option<string>): (r: seq<ToolCall>)
    requires Marshals(calls, marshal)
    ensures |r| == |calls|
  {
    seq(|calls|, i requires 0 <= i < |calls| => calls[i].(args := marshal(calls[i].args).value))
  }

  /** What was said so far. */
  datatype Said = Said(thinking: string, text: string, calls: seq<ToolCall>)

  /** The blocks so far are those of the one-shot response to what was said so far. */
  ghost predicate Agrees(c: Conv, bs: seq<Block>, s: Said, marshal: string -> Option<string>) {
    && Marshals(s.calls, marshal) && bs == ContentBlocks(s.thinking, s.text, WithJson(s.calls, marshal))
    && (c.thinkingStarted <==> s.thinking != "")
    && (c.thinkingDone <==> s.thinking != "" && (s.text != "" || s.calls != []))
    && (c.textStarted <==> s.text != "" && s.calls == [])
    && c.sent == Ids(s.calls)
  }

  function Rank(b: Block): nat {
    match b case Thinking(_) => 0 case Text(_) => 1 case ToolUse(_, _, _) => 2
  }

  predicate OutOfOrder(bs: seq<Block>) {
    exists i, j :: 0 <= i < j < |bs| && Rank(bs[i]) > Rank(bs[j])
  }

  function ThinkingIn(bs: seq<Block>): nat {
    if bs == [] then 0
    else ThinkingIn(bs[..|bs| - 1]) + if bs[|bs| - 1].Thinking? then |bs[|bs| - 1].text| else 0
  }

  function ToolsIn(bs: seq<Block>): nat {
    if bs == [] then 0 else ToolsIn(bs[..|bs| - 1]) + if bs[|bs| - 1].ToolUse? then 1 else 0
  }

  /** Blocks out of order, or thinking or calls missing: nothing later mends it. */
  ghost predicate Spoiled(bs: seq<Block>, s: Said) {
    OutOfOrder(bs) || ThinkingIn(bs) < |s.thinking| || ToolsIn(bs) < |s.calls|
  }

  lemma {:induction false} ToolBlocksShape(calls: seq<ToolCall>)
    ensures |ToolBlocks(calls)| == |calls| && forall i :: 0 <= i < |calls| ==> ToolBlocks(calls)[i].ToolUse?
    ensures ToolsIn(ToolBlocks(calls)) == |calls| && ThinkingIn(ToolBlocks(calls)) == 0
  {
    if calls != [] {
      var init := calls[..|calls| - 1];
      ToolBlocksShape(init);
      assert ToolBlocks(calls)[..|calls| - 1] == ToolBlocks(init);
    }
  }

  lemma {:induction false} CountConcat(a: seq<Block>, b: seq<Block>)
    ensures ToolsIn(a + b) == ToolsIn(a) + ToolsIn(b) && ThinkingIn(a + b) == ThinkingIn(a) + ThinkingIn(b)
  {
    if b == [] {
      assert a + b == a;
    } else {
      CountConcat(a, b[..|b| - 1]);
      assert (a + b)[..|a + b| - 1] == a + b[..|b| - 1];
    }
  }

  lemma CountOne(b: Block)
    ensures ToolsIn([b]) == (if b.ToolUse? then 1 else 0) && ThinkingIn([b]) == if b.Thinking? then |b.text| else 0
  {
    assert [b][..0] == [];
  }

  lemma OneShotCounts(s: Said, calls: seq<ToolCall>)
    ensures ToolsIn(ContentBlocks(s.thinking, s.text, calls)) == |calls|
    ensures ThinkingIn(ContentBlocks(s.thinking, s.text, calls)) == |s.thinking|
  {
    hide ToolsIn, ThinkingIn;
    var th: seq<Block> := if s.thinking != "" then [Thinking(s.thinking)] else [];
    var tx: seq<Block> := if s.text != "" then [Text(s.text)] else [];
    ToolBlocksShape(calls);
    CountConcat(th, tx);
    CountConcat(th + tx, ToolBlocks(calls));
    CountOne(Thinking(s.thinking));
    CountOne(Text(s.text));
    NoneCounted();
  }

  lemma NoneCounted()
    ensures ToolsIn([]) == 0 && ThinkingIn([]) == 0
  {}

  lemma OneShotInOrder(s: Said, calls: seq<ToolCall>)
    ensures !OutOfOrder(ContentBlocks(s.thinking, s.text, calls))
  {
    hide ToolsIn, ThinkingIn, ToolBlocks;
    var th: seq<Block> := if s.thinking != "" then [Thinking(s.thinking)] else [];
    var tx: seq<Block> := if s.text != "" then [Text(s.text)] else [];
    var before := th + tx;
    ToolBlocksShape(calls);
    var bs := before + ToolBlocks(calls);
    assert bs == ContentBlocks(s.thinking, s.text, calls);
    forall i, j | 0 <= i < j < |bs| ensures Rank(bs[i]) <= Rank(bs[j]) {
      if j >= |before| { assert bs[j] == ToolBlocks(calls)[j - |before|]; }
    }
  }

  /** A one-shot response is in order and misses nothing. */
  lemma OneShotNotSpoiled(s: Said, calls: seq<ToolCall>)
    requires |calls| == |s.calls|
    ensures !Spoiled(ContentBlocks(s.thinking, s.text, calls), s)
  {
    hide OutOfOrder, ToolsIn, ThinkingIn, ContentBlocks;
    OneShotCounts(s, calls);
    OneShotInOrder(s, calls);
  }

  /** Growing the last block or adding one keeps what is out of order so. */
  lemma StaysOutOfOrder(bs: seq<Block>, b: Block)
    requires OutOfOrder(bs)
    ensures OutOfOrder(bs + [b])
    ensures Rank(b) == Rank(bs[|bs| - 1]) ==> OutOfOrder(bs[..|bs| - 1] + [b])
  {
    var i, j :| 0 <= i < j < |bs| && Rank(bs[i]) > Rank(bs[j]);
    var added, grown := bs + [b], bs[..|bs| - 1] + [b];
    assert Rank(added[i]) > Rank(added[j]);
    if Rank(b) == Rank(bs[|bs| - 1]) { assert Rank(grown[i]) > Rank(grown[j]); }
  }

  lemma CountLast(bs: seq<Block>, b: Block)
    requires bs != []
    ensures var last, grown := bs[|bs| - 1], bs[..|bs| - 1] + [b];
      && ToolsIn(bs + [b]) == ToolsIn(bs) + ToolsIn([b]) && ThinkingIn(bs + [b]) == ThinkingIn(bs) + ThinkingIn([b])
      && ToolsIn(bs) - ToolsIn([last]) + ToolsIn([b]) == ToolsIn(grown)
      && ThinkingIn(bs) - ThinkingIn([last]) + ThinkingIn([b]) == ThinkingIn(grown)
  {
    var init, last := bs[..|bs| - 1], bs[|bs| - 1];
    CountConcat(bs, [b]);
    CountConcat(init, [last]);
    CountConcat(init, [b]);
    assert init + [last] == bs;
  }

  // ----- thinking

  /** Thinking agrees if nothing else was said before it; otherwise it is lost or comes too late. */
  lemma ThinkingKeeps(c: Conv, bs: seq<Block>, s: Said, marshal: string -> Option<string>, thinking: string)
    requires LastOpen(c, bs)
    ensures var c', bs' := ThinkingStep(c, thinking).0, ThinkingEffect(c, bs, thinking);
      var s' := s.(thinking := s.thinking + thinking);
      && (Spoiled(bs, s) ==> Spoiled(bs', s'))
      && (Agrees(c, bs, s, marshal) ==>
            if thinking == "" || (s.text == "" && s.calls == []) then Agrees(c', bs', s', marshal)
              else Spoiled(bs', s'))
  {
    if thinking == "" {
      assert s.thinking + thinking == s.thinking;
    } else {
      if Spoiled(bs, s) { ThinkingStaysSpoiled(c, bs, s, thinking); }
      if Agrees(c, bs, s, marshal) {
        if s.text == "" && s.calls == [] {
          assert ToolBlocks([]) == [] && bs == if s.thinking != "" then [Thinking(s.thinking)] else [];
          assert s.thinking == "" ==> s.thinking + thinking == thinking;
          assert ThinkingEffect(c, bs, thinking) == [Thinking(s.thinking + thinking)];
        } else {
          LateThinking(c, bs, s, marshal, thinking);
        }
      }
    }
  }

  lemma ThinkingStaysSpoiled(c: Conv, bs: seq<Block>, s: Said, thinking: string)
    requires LastOpen(c, bs) && Spoiled(bs, s) && thinking != ""
    ensures Spoiled(ThinkingEffect(c, bs, thinking), s.(thinking := s.thinking + thinking))
  {
    if c.thinkingDone {
    } else if c.thinkingStarted {
      var b := Thinking(bs[|bs| - 1].text + thinking);
      CountLast(bs, b);
      CountOne(b);
      CountOne(bs[|bs| - 1]);
      if OutOfOrder(bs) { StaysOutOfOrder(bs, b); }
    } else {
      CountConcat(bs, [Thinking(thinking)]);
      CountOne(Thinking(thinking));
      if OutOfOrder(bs) { StaysOutOfOrder(bs, Thinking(thinking)); }
    }
  }

  lemma LateThinking(c: Conv, bs: seq<Block>, s: Said, marshal: string -> Option<string>, thinking: string)
    requires LastOpen(c, bs) && Agrees(c, bs, s, marshal) && thinking != "" && (s.text != "" || s.calls != [])
    ensures Spoiled(ThinkingEffect(c, bs, thinking), s.(thinking := s.thinking + thinking))
  {
    var calls := WithJson(s.calls, marshal);
    ToolBlocksShape(calls);
    if s.thinking != "" {
      var th: seq<Block>, tx: seq<Block> := [Thinking(s.thinking)], if s.text != "" then [Text(s.text)] else [];
      CountConcat(th, tx);
      CountConcat(th + tx, ToolBlocks(calls));
      CountOne(Thinking(s.thinking));
      CountOne(Text(s.text));
    } else {
      var bs' := bs + [Thinking(thinking)];
      assert bs != [] && Rank(bs[0]) > 0;
      assert Rank(bs'[0]) > Rank(bs'[|bs|]);
    }
  }

  // ----- text

  /** Text agrees if no tool was called before it; otherwise its block comes too late. */
  lemma TextKeeps(c: Conv, bs: seq<Block>, s: Said, marshal: string -> Option<string>, content: string)
    requires LastOpen(c, bs)
    ensures var c', bs', s' := TextStep(c, content).0, TextEffect(c, bs, content), s.(text := s.text + content);
      && (Spoiled(bs, s) ==> Spoiled(bs', s'))
      && (Agrees(c, bs, s, marshal) ==>
            if content == "" || s.calls == [] then Agrees(c', bs', s', marshal) else Spoiled(bs', s'))
  {
    if content == "" {
      assert s.text + content == s.text;
    } else {
      if Spoiled(bs, s) { TextStaysSpoiled(c, bs, s, content); }
      if Agrees(c, bs, s, marshal) {
        if s.calls == [] {
          var th: seq<Block> := if s.thinking != "" then [Thinking(s.thinking)] else [];
          assert ToolBlocks([]) == [];
          assert bs == th + if s.text != "" then [Text(s.text)] else [];
          assert s.text == "" ==> s.text + content == content;
          assert TextEffect(c, bs, content) == th + [Text(s.text + content)];
        } else {
          LateText(c, bs, s, marshal, content);
        }
      }
    }
  }

  lemma TextStaysSpoiled(c: Conv, bs: seq<Block>, s: Said, content: string)
    requires LastOpen(c, bs) && Spoiled(bs, s) && content != ""
    ensures Spoiled(TextEffect(c, bs, content), s.(text := s.text + content))
  {
    if c.textStarted {
      var b := Text(bs[|bs| - 1].text + content);
      CountLast(bs, b);
      CountOne(b);
      CountOne(bs[|bs| - 1]);
      if OutOfOrder(bs) { StaysOutOfOrder(bs, b); }
    } else {
      CountConcat(bs, [Text(content)]);
      CountOne(Text(content));
      if OutOfOrder(bs) { StaysOutOfOrder(bs, Text(content)); }
    }
  }

  lemma LateText(c: Conv, bs: seq<Block>, s: Said, marshal: string -> Option<string>, content: string)
    requires LastOpen(c, bs) && Agrees(c, bs, s, marshal) && content != "" && s.calls != []
    ensures Spoiled(TextEffect(c, bs, content), s.(text := s.text + content))
  {
    ToolBlocksShape(WithJson(s.calls, marshal));
    var bs' := bs + [Text(content)];
    assert bs[|bs| - 1].ToolUse?;
    assert Rank(bs'[|bs| - 1]) > Rank(bs'[|bs|]);
  }

  // ----- tool calls

  /** A call agrees if its ID is new; otherwise it is missing. */
  lemma ToolKeeps(c: Conv, bs: seq<Block>, s: Said, marshal: string -> Option<string>, call: ToolCall)
    requires LastOpen(c, bs) && marshal(call.args).Some?
    ensures var c', bs' := ToolStep(c, call, marshal).0, ToolEffect(c, bs, call, marshal);
      var s' := s.(calls := s.calls + [call]);
      && (Spoiled(bs, s) ==> Spoiled(bs', s'))
      && (Agrees(c, bs, s, marshal) ==>
            if call.id !in Ids(s.calls) then Agrees(c', bs', s', marshal) else Spoiled(bs', s'))
  {
    if Spoiled(bs, s) { ToolStaysSpoiled(c, bs, s, marshal, call); }
    if Agrees(c, bs, s, marshal) {
      if call.id in Ids(s.calls) {
        OneShotCounts(s, WithJson(s.calls, marshal));
      } else {
        NewCallAgrees(c, bs, s, marshal, call);
      }
    }
  }

  lemma ToolStaysSpoiled(c: Conv, bs: seq<Block>, s: Said, marshal: string -> Option<string>, call: ToolCall)
    requires Spoiled(bs, s)
    ensures Spoiled(ToolEffect(c, bs, call, marshal), s.(calls := s.calls + [call]))
  {
    if GetsThrough(c, call, marshal) {
      var b := ToolUse(call.id, call.name, marshal(call.args).value);
      CountConcat(bs, [b]);
      CountOne(b);
      if OutOfOrder(bs) { StaysOutOfOrder(bs, b); }
    }
  }

  lemma NewCallAgrees(c: Conv, bs: seq<Block>, s: Said, marshal: string -> Option<string>, call: ToolCall)
    requires Valid(c) && Agrees(c, bs, s, marshal) && marshal(call.args).Some? && call.id !in Ids(s.calls)
    ensures Agrees(ToolStep(c, call, marshal).0, ToolEffect(c, bs, call, marshal), s.(calls := s.calls + [call]),
                   marshal)
  {
    var all := s.calls + [call];
    var json := call.(args := marshal(call.args).value);
    assert WithJson(all, marshal) == WithJson(s.calls, marshal) + [json];
    assert WithJson(all, marshal)[..|s.calls|] == WithJson(s.calls, marshal);
    assert Ids(all) == Ids(s.calls) + {call.id};
  }

  // ----- a whole chunk and a whole stream

  /** In order so far and still agreeing, or spoiled. */
  ghost predicate Judged(c: Conv, bs: seq<Block>, s: Said, marshal: string -> Option<string>, good: bool) {
    LastOpen(c, bs) && if good then Agrees(c, bs, s, marshal) else Spoiled(bs, s)
  }

  predicate DistinctIds(calls: seq<ToolCall>) {
    forall i, j :: 0 <= i < j < |calls| ==> calls[i].id != calls[j].id
  }

  lemma DistinctSnoc(calls: seq<ToolCall>, call: ToolCall)
    ensures DistinctIds(calls + [call]) <==> DistinctIds(calls) && call.id !in Ids(calls)
  {
    var all := calls + [call];
    if DistinctIds(all) {
      forall i, j | 0 <= i < j < |calls| ensures calls[i].id != calls[j].id {
        assert all[i].id != all[j].id;
      }
      forall k | 0 <= k < |calls| ensures calls[k].id != call.id {
        assert all[k].id != all[|calls|].id;
      }
    }
  }

  lemma {:induction false} ToolsJudged(c: Conv, bs: seq<Block>, s: Said, marshal: string -> Option<string>, good: bool,
                                       calls: seq<ToolCall>)
    requires Judged(c, bs, s, marshal, good) && Marshals(calls, marshal) && (good ==> DistinctIds(s.calls))
    ensures var (c', es) := ToolSteps(c, calls, marshal);
      Judged(c', FoldAll(bs, es), s.(calls := s.calls + calls), marshal, good && DistinctIds(s.calls + calls))
  {
    if calls == [] {
      FoldOne(bs, MessageStop);
      assert s.calls + calls == s.calls;
    } else {
      var init, last := calls[..|calls| - 1], calls[|calls| - 1];
      ToolsJudged(c, bs, s, marshal, good, init);
      var (c1, e1) := ToolSteps(c, init, marshal);
      var s1 := s.(calls := s.calls + init);
      var (c2, e2) := ToolStep(c1, last, marshal);
      hide ToolStep, FoldAll, Agrees, Spoiled, ToolEffect, LastOpen;
      assert s.calls + calls == s1.calls + [last];
      FoldConcat(bs, e1, e2);
      JudgedOpen(c1, FoldAll(bs, e1), s1, marshal, good && DistinctIds(s1.calls));
      ToolFolds(c1, FoldAll(bs, e1), last, marshal);
      ToolKeeps(c1, FoldAll(bs, e1), s1, marshal, last);
      DistinctSnoc(s1.calls, last);
    }
  }

  lemma JudgedOpen(c: Conv, bs: seq<Block>, s: Said, marshal: string -> Option<string>, good: bool)
    requires Judged(c, bs, s, marshal, good)
    ensures LastOpen(c, bs) && if good then Agrees(c, bs, s, marshal) else Spoiled(bs, s)
  {}

  /** What a chunk may still say. */
  predicate InTurn(s: Said, r: Response) {
    && (r.thinking != "" ==> s.text == "" && s.calls == [])
    && (r.content != "" ==> s.calls == [])
  }

  /** All thinking before text before tool calls. */
  predicate InOrder(rs: seq<Response>) {
    rs == [] || (InOrder(rs[..|rs| - 1]) && InTurn(SaidBy(rs[..|rs| - 1]), rs[|rs| - 1]))
  }

  function SaidBy(rs: seq<Response>): Said {
    Said(AllThinking(rs), AllText(rs), AllCalls(rs))
  }

  function SayMore(s: Said, r: Response): Said {
    Said(s.thinking + r.thinking, s.text + r.content, s.calls + r.calls)
  }

  lemma ThinkingJudged(c: Conv, bs: seq<Block>, s: Said, marshal: string -> Option<string>, good: bool,
                       thinking: string)
    requires Judged(c, bs, s, marshal, good)
    ensures var (c', es) := ThinkingStep(c, thinking);
      Judged(c', FoldAll(bs, es), s.(thinking := s.thinking + thinking), marshal,
             good && (thinking != "" ==> s.text == "" && s.calls == []))
  {
    hide Agrees, Spoiled, ThinkingStep, FoldAll, LastOpen, ThinkingEffect;
    ThinkingFolds(c, bs, thinking);
    ThinkingKeeps(c, bs, s, marshal, thinking);
  }

  lemma TextJudged(c: Conv, bs: seq<Block>, s: Said, marshal: string -> Option<string>, good: bool, content: string)
    requires Judged(c, bs, s, marshal, good)
    ensures var (c', es) := TextStep(c, content);
      Judged(c', FoldAll(bs, es), s.(text := s.text + content), marshal, good && (content != "" ==> s.calls == []))
  {
    hide Agrees, Spoiled, TextStep, FoldAll, LastOpen, TextEffect;
    TextFolds(c, bs, content);
    TextKeeps(c, bs, s, marshal, content);
  }

  /** Counts and prompt tokens do not matter to the blocks. */
  lemma SameBlocksState(c: Conv, c': Conv, bs: seq<Block>, s: Said, marshal: string -> Option<string>, good: bool)
    requires Judged(c, bs, s, marshal, good)
    requires c'.thinkingStarted == c.thinkingStarted && c'.thinkingDone == c.thinkingDone
    requires c'.textStarted == c.textStarted && c'.sent == c.sent
    ensures Judged(c', bs, s, marshal, good)
  {
    hide ContentBlocks, Spoiled;
  }

  lemma ChunkJudged(c: Conv, bs: seq<Block>, s: Said, marshal: string -> Option<string>, good: bool, r: Response)
    requires Judged(c, bs, s, marshal, good) && Marshals(r.calls, marshal) && (good ==> DistinctIds(s.calls))
    ensures var (c', es) := Step(c, r, marshal);
      Judged(c', FoldAll(bs, es), SayMore(s, r), marshal, good && InTurn(s, r) && DistinctIds(s.calls + r.calls))
  {
    var (c1, e1) := BeginStep(c, r.metrics);
    var (c2, e2) := ThinkingStep(c1, r.thinking);
    var (c3, e3) := TextStep(c2, r.content);
    var (c4, e4) := ToolSteps(c3, r.calls, marshal);
    var (c5, e5) := DoneStep(c4, r);
    hide Judged, FoldAll, BeginStep, ThinkingStep, TextStep, ToolSteps, DoneStep, DistinctIds, Marshals;
    EndsJudged(c, bs, s, marshal, good, r);
    ThinkingJudged(c1, bs, s, marshal, good, r.thinking);
    var b2, s2, good2 := FoldAll(bs, e2), s.(thinking := s.thinking + r.thinking),
      good && (r.thinking != "" ==> s.text == "" && s.calls == []);
    TextJudged(c2, b2, s2, marshal, good2, r.content);
    var b3, s3, good3 := FoldAll(b2, e3), s2.(text := s2.text + r.content), good2
      && (r.content != "" ==> s.calls == []);
    ToolsJudged(c3, b3, s3, marshal, good3, r.calls);
    var b4 := FoldAll(b3, e4);
    FoldConcat(bs, e1, e2);
    FoldConcat(bs, e1 + e2, e3);
    FoldConcat(bs, e1 + e2 + e3, e4);
    FoldConcat(bs, e1 + e2 + e3 + e4, e5);
    EndsJudged(c4, b4, SayMore(s, r), marshal, good3 && DistinctIds(s.calls + r.calls), r);
  }

  /** A chunk's opening and closing events leave the blocks as they are. */
  lemma EndsJudged(c: Conv, bs: seq<Block>, s: Said, marshal: string -> Option<string>, good: bool, r: Response)
    requires Judged(c, bs, s, marshal, good)
    ensures var (c', es) := BeginStep(c, r.metrics); FoldAll(bs, es) == bs && Judged(c', bs, s, marshal, good)
    ensures var (c', es) := DoneStep(c, r); FoldAll(bs, es) == bs && Judged(c', bs, s, marshal, good)
  {
    hide Judged, FoldAll, MapStopReason, UsageFromMetrics;
    EndsFold(c, bs, r);
    SameBlocksState(c, BeginStep(c, r.metrics).0, bs, s, marshal, good);
    SameBlocksState(c, DoneStep(c, r).0, bs, s, marshal, good);
  }

  ghost predicate AllMarshal(rs: seq<Response>, marshal: string -> Option<string>) {
    forall i :: 0 <= i < |rs| ==> Marshals(rs[i].calls, marshal)
  }

  lemma {:induction false} StreamJudged(estimated: int, rs: seq<Response>, marshal: string -> Option<string>)
    requires AllMarshal(rs, marshal)
    ensures var (c, es) := Stream(NewConv(estimated), rs, marshal);
      Judged(c, FoldAll([], es), SaidBy(rs), marshal, InOrder(rs) && DistinctIds(AllCalls(rs)))
    ensures Marshals(AllCalls(rs), marshal)
  {
    if rs == [] {
      NothingSaid(estimated, marshal);
      FoldOne([], MessageStop);
    } else {
      var init, last := rs[..|rs| - 1], rs[|rs| - 1];
      hide Step, Judged, FoldAll;
      StreamJudged(estimated, init, marshal);
      var (c1, e1) := Stream(NewConv(estimated), init, marshal);
      var (c2, e2) := Step(c1, last, marshal);
      FoldConcat([], e1, e2);
      ChunkJudged(c1, FoldAll([], e1), SaidBy(init), marshal, InOrder(init) && DistinctIds(AllCalls(init)), last);
      DistinctPrefix(AllCalls(init), last.calls);
    }
  }

  lemma NothingSaid(estimated: int, marshal: string -> Option<string>)
    ensures Judged(NewConv(estimated), [], Said("", "", []), marshal, true)
  {
    assert WithJson([], marshal) == [];
  }

  lemma DistinctPrefix(a: seq<ToolCall>, b: seq<ToolCall>)
    ensures DistinctIds(a + b) ==> DistinctIds(a)
  {
    if DistinctIds(a + b) {
      forall i, j | 0 <= i < j < |a| ensures a[i].id != a[j].id {
        assert (a + b)[i].id != (a + b)[j].id;
      }
    }
  }

  /** However the response was chunked, the folded blocks are those of the one-shot response to everything said
      exactly when thinking came before text before tool calls and no call ID was repeated. */
  lemma StreamRefinesOneShot(estimated: int, rs: seq<Response>, marshal: string -> Option<string>)
    requires AllMarshal(rs, marshal)
    ensures Marshals(AllCalls(rs), marshal)
    ensures FoldAll([], Stream(NewConv(estimated), rs, marshal).1)
         == ContentBlocks(AllThinking(rs), AllText(rs), WithJson(AllCalls(rs), marshal))
      <==> InOrder(rs) && DistinctIds(AllCalls(rs))
  {
    hide FoldAll, ContentBlocks, Spoiled, InOrder, DistinctIds, Stream;
    StreamJudged(estimated, rs, marshal);
    OneShotNotSpoiled(SaidBy(rs), WithJson(AllCalls(rs), marshal));
  }

  /** The closing events carry the one-shot response's stop reason and usage, whatever the order of the chunks. */
  lemma StreamEndsAsOneShot(estimated: int, rs: seq<Response>, marshal: string -> Option<string>)
    requires rs != [] && rs[|rs| - 1].done && AllMarshal(rs, marshal)
    ensures var es := Stream(NewConv(estimated), rs, marshal).1;
      var last := rs[|rs| - 1];
      |es| >= 2 && es[|es| - 1] == MessageStop
      && es[|es| - 2] == MessageDelta(MapStopReason(last.doneReason, |AllCalls(rs)| > 0),
                                      UsageFromMetrics(last.metrics))
  {
    var last := rs[|rs| - 1];
    var (c1, e1) := Stream(NewConv(estimated), rs[..|rs| - 1], marshal);
    var (c2, e2) := Step(c1, last, marshal);
    hide Sendable, SentText, SentThinking, SentIds, Remembered, MapStopReason, AllText, AllThinking;
    StreamSends(estimated, rs, marshal);
    StreamSnoc(estimated, rs, marshal);
    AllMarshalled(rs, marshal);
    SentSomething(AllCalls(rs), marshal, c2.sent);
    EndOfChunk(c1, last, marshal);
  }

  lemma {:induction false} AllMarshalled(rs: seq<Response>, marshal: string -> Option<string>)
    requires AllMarshal(rs, marshal)
    ensures Marshals(AllCalls(rs), marshal)
  {
    if rs != [] { AllMarshalled(rs[..|rs| - 1], marshal); }
  }

  lemma SentSomething(calls: seq<ToolCall>, marshal: string -> Option<string>, sent: set<string>)
    requires Marshals(calls, marshal) && forall id :: id in sent <==> Sendable(calls, marshal, id)
    ensures |sent| > 0 <==> |calls| > 0
  {
    if |calls| > 0 {
      assert Sendable(calls, marshal, calls[0].id);
      assert calls[0].id in sent;
    } else {
      assert forall id :: !Sendable(calls, marshal, id);
      assert sent == {};
    }
  }

  lemma EndOfChunk(c: Conv, r: Response, marshal: string -> Option<string>)
    requires r.done
    ensures var (c', es) := Step(c, r, marshal);
      |es| >= 2 && es[|es| - 1] == MessageStop
      && es[|es| - 2] == MessageDelta(MapStopReason(r.doneReason, |c'.sent| > 0), UsageFromMetrics(r.metrics))
  {
    hide BeginStep, ThinkingStep, TextStep, ToolSteps, MapStopReason, UsageFromMetrics;
  }
}
