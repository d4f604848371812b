/** What a stream carries: all the text in order, thinking up to the first text, each tool call once. */
module StreamContent {
  import opened AnthropicStream

  // ----- what was said in all

  function AllThinking(rs: seq<Response>): string {
    if rs == [] then "" else AllThinking(rs[..|rs| - 1]) + rs[|rs| - 1].thinking
  }

  function AllText(rs: seq<Response>): string {
    if rs == [] then "" else AllText(rs[..|rs| - 1]) + rs[|rs| - 1].content
  }

  function AllCalls(rs: seq<Response>): seq<ToolCall> {
    if rs == [] then [] else AllCalls(rs[..|rs| - 1]) + rs[|rs| - 1].calls
  }

  // ----- what was sent in all

  function SentText(es: seq<StreamEvent>): string {
    if es == [] then ""
    else
      var e := es[|es| - 1];
      SentText(es[..|es| - 1]) + if e.BlockDelta? && e.delta.TextDelta? then e.delta.text else ""
  }

  function SentThinking(es: seq<StreamEvent>): string {
    if es == [] then ""
    else
      var e := es[|es| - 1];
      SentThinking(es[..|es| - 1]) + if e.BlockDelta? && e.delta.ThinkingDelta? then e.delta.text else ""
  }

  /** The IDs of the tool blocks started, in order. */
  function SentIds(es: seq<StreamEvent>): seq<string> {
    if es == [] then []
    else
      var e := es[|es| - 1];
      SentIds(es[..|es| - 1]) + if e.BlockStart? && e.kind.ToolBlock? then [e.kind.id] else []
  }

  lemma SentTextLast(es: seq<StreamEvent>)
    ensures SentText([]) == ""
    ensures es != [] ==> SentText(es) == SentText(es[..|es| - 1]) + SentText([es[|es| - 1]])
  {
    if es != [] {
      var last := [es[|es| - 1]];
      assert last[..0] == [];
      assert SentText(last[..0]) == "";
    }
  }

  lemma {:induction false} SentTextConcat(a: seq<StreamEvent>, b: seq<StreamEvent>)
    ensures SentText(a + b) == SentText(a) + SentText(b)
  {
    hide SentText;
    if b == [] {
      assert a + b == a;
      SentTextLast(b);
    } else {
      var init, ab := b[..|b| - 1], a + b;
      SentTextConcat(a, init);
      assert ab[..|ab| - 1] == a + init && ab[|ab| - 1] == b[|b| - 1];
      SentTextLast(ab);
      SentTextLast(b);
      Regroup(SentText(a), SentText(init), SentText([b[|b| - 1]]));
    }
  }

  lemma SentThinkingLast(es: seq<StreamEvent>)
    ensures SentThinking([]) == ""
    ensures es != [] ==> SentThinking(es) == SentThinking(es[..|es| - 1]) + SentThinking([es[|es| - 1]])
  {
    if es != [] {
      var last := [es[|es| - 1]];
      assert last[..0] == [];
      assert SentThinking(last[..0]) == "";
    }
  }

  lemma {:induction false} SentThinkingConcat(a: seq<StreamEvent>, b: seq<StreamEvent>)
    ensures SentThinking(a + b) == SentThinking(a) + SentThinking(b)
  {
    hide SentThinking;
    if b == [] {
      assert a + b == a;
      SentThinkingLast(b);
    } else {
      var init, ab := b[..|b| - 1], a + b;
      SentThinkingConcat(a, init);
      assert ab[..|ab| - 1] == a + init && ab[|ab| - 1] == b[|b| - 1];
      SentThinkingLast(ab);
      SentThinkingLast(b);
      Regroup(SentThinking(a), SentThinking(init), SentThinking([b[|b| - 1]]));
    }
  }

  lemma Regroup(a: string, b: string, c: string)
    ensures (a + b) + c == a + (b + c)
  {}

  lemma {:induction false} SentIdsConcat(a: seq<StreamEvent>, b: seq<StreamEvent>)
    ensures SentIds(a + b) == SentIds(a) + SentIds(b)
  {
    if b == [] {
      assert a + b == a;
    } else {
      SentIdsConcat(a, b[..|b| - 1]);
      assert (a + b)[..|a + b| - 1] == a + b[..|b| - 1];
    }
  }

  lemma SentConcat(a: seq<StreamEvent>, b: seq<StreamEvent>)
    ensures SentText(a + b) == SentText(a) + SentText(b)
    ensures SentThinking(a + b) == SentThinking(a) + SentThinking(b)
    ensures SentIds(a + b) == SentIds(a) + SentIds(b)
  {
    hide SentText, SentThinking, SentIds;
    SentTextConcat(a, b);
    SentThinkingConcat(a, b);
    SentIdsConcat(a, b);
  }

  /** What some events send. */
  ghost predicate Sends(es: seq<StreamEvent>, thinking: string, text: string, ids: seq<string>) {
    SentThinking(es) == thinking && SentText(es) == text && SentIds(es) == ids
  }

  lemma SendsBoth(a: seq<StreamEvent>, th: string, tx: string, ids: seq<string>, b: seq<StreamEvent>, th': string,
                  tx': string, ids': seq<string>)
    requires Sends(a, th, tx, ids) && Sends(b, th', tx', ids')
    ensures Sends(a + b, th + th', tx + tx', ids + ids')
  {
    SentConcat(a, b);
  }

  lemma SendsOne(e: StreamEvent)
    ensures Sends([e],
      if e.BlockDelta? && e.delta.ThinkingDelta? then e.delta.text else "",
      if e.BlockDelta? && e.delta.TextDelta? then e.delta.text else "",
      if e.BlockStart? && e.kind.ToolBlock? then [e.kind.id] else [])
  {
    assert [e][..0] == [];
  }

  lemma SendsNothing()
    ensures Sends([], "", "", [])
  {}

  /** Closing a block sends nothing. */
  lemma ClosingSends(c: Conv)
    ensures Sends(CloseText(c).1, "", "", []) && Sends(CloseThinking(c).1, "", "", [])
  {
    hide Sends;
    SendsNothing();
    SendsOne(BlockStop(c.index));
  }

  lemma ThinkingSends(c: Conv, thinking: string)
    ensures Sends(ThinkingStep(c, thinking).1, if c.thinkingDone then "" else thinking, "", [])
  {
    hide Sends, CloseText;
    SendsNothing();
    if thinking != "" && !c.thinkingDone {
      var (c1, e1) := CloseText(c);
      ClosingSends(c);
      var start: seq<StreamEvent> := if c1.thinkingStarted then [] else [BlockStart(c1.index, ThinkingBlock)];
      if !c1.thinkingStarted { SendsOne(BlockStart(c1.index, ThinkingBlock)); }
      SendsOne(BlockDelta(c1.index, ThinkingDelta(thinking)));
      SendsBoth(e1, "", "", [], start, "", "", []);
      SendsBoth(e1 + start, "", "", [], [BlockDelta(c1.index, ThinkingDelta(thinking))], thinking, "", []);
      assert "" + thinking == thinking;
    }
  }

  lemma TextSends(c: Conv, content: string)
    ensures Sends(TextStep(c, content).1, "", content, [])
  {
    hide Sends, CloseThinking;
    SendsNothing();
    if content != "" {
      var (c1, e1) := CloseThinking(c);
      ClosingSends(c);
      var start: seq<StreamEvent> := if c1.textStarted then [] else [BlockStart(c1.index, TextBlock)];
      if !c1.textStarted { SendsOne(BlockStart(c1.index, TextBlock)); }
      SendsOne(BlockDelta(c1.index, TextDelta(content)));
      SendsBoth(e1, "", "", [], start, "", "", []);
      SendsBoth(e1 + start, "", "", [], [BlockDelta(c1.index, TextDelta(content))], "", content, []);
      assert "" + content == content;
    }
  }

  /** The calls that get through: new to the stream, and with arguments that marshal. */
  predicate GetsThrough(c: Conv, call: ToolCall, marshal: string -> Option<string>) {
    call.id !in c.sent && marshal(call.args).Some?
  }

  lemma ToolSends(c: Conv, call: ToolCall, marshal: string -> Option<string>)
    ensures Sends(ToolStep(c, call, marshal).1, "", "", if GetsThrough(c, call, marshal) then [call.id] else [])
    ensures ToolStep(c, call, marshal).0.sent == c.sent + if GetsThrough(c, call, marshal) then {call.id} else {}
  {
    hide Sends;
    SendsNothing();
    if call.id !in c.sent {
      var (c1, e1) := CloseThinking(c);
      var (c2, e2) := CloseText(c1);
      ClosingSends(c);
      ClosingSends(c1);
      SendsBoth(e1, "", "", [], e2, "", "", []);
      var none: seq<string> := [];
      assert "" + "" == "" && none + none == none && none + [call.id] == [call.id];
      if marshal(call.args).Some? {
        ToolEventsSend(c2.index, call, marshal(call.args).value);
        SendsBoth(e1 + e2, "", "", [], ToolEvents(c2.index, call, marshal(call.args).value), "", "", [call.id]);
      }
    }
  }

  lemma ToolEventsSend(i: nat, call: ToolCall, json: string)
    ensures Sends(ToolEvents(i, call, json), "", "", [call.id])
  {
    hide Sends;
    var a, b, c := BlockStart(i, ToolBlock(call.id, call.name)), BlockDelta(i, JsonDelta(json)), BlockStop(i);
    SendsOne(a);
    SendsOne(b);
    SendsOne(c);
    SendsBoth([a], "", "", [call.id], [b], "", "", []);
    SendsBoth([a] + [b], "", "", [call.id], [c], "", "", []);
    assert [a] + [b] + [c] == ToolEvents(i, call, json);
  }

  predicate Distinct(ids: seq<string>) {
    forall i, j :: 0 <= i < j < |ids| ==> ids[i] != ids[j]
  }

  /** The IDs sent so far are distinct, and are the ones the converter remembers. */
  ghost predicate Remembered(ids: seq<string>, sent: set<string>) {
    Distinct(ids) && forall id :: id in ids <==> id in sent
  }

  lemma RememberOne(ids: seq<string>, sent: set<string>, id: string)
    requires Remembered(ids, sent) && id !in sent
    ensures Remembered(ids + [id], sent + {id})
  {}

  /** The IDs with some call whose arguments marshal. */
  ghost predicate Sendable(calls: seq<ToolCall>, marshal: string -> Option<string>, id: string) {
    exists i :: 0 <= i < |calls| && calls[i].id == id && marshal(calls[i].args).Some?
  }

  /** After some calls: no text, and the IDs sent before and now are remembered. */
  ghost predicate CallsSent(c: Conv, ids: seq<string>, calls: seq<ToolCall>, marshal: string -> Option<string>,
                            c': Conv, es: seq<StreamEvent>) {
    && SentText(es) == "" && SentThinking(es) == "" && Remembered(ids + SentIds(es), c'.sent)
    && forall id :: id in c'.sent <==> id in c.sent || Sendable(calls, marshal, id)
  }

  lemma OneMoreCall(c: Conv, ids: seq<string>, calls: seq<ToolCall>, marshal: string -> Option<string>,
                    c1: Conv, e1: seq<StreamEvent>, last: ToolCall)
    requires CallsSent(c, ids, calls, marshal, c1, e1)
    ensures var (c2, e2) := ToolStep(c1, last, marshal); CallsSent(c, ids, calls + [last], marshal, c2, e1 + e2)
  {
    hide ToolStep, Remembered, Sendable, SentText, SentThinking, SentIds;
    var (c2, e2) := ToolStep(c1, last, marshal);
    ToolSends(c1, last, marshal);
    SentConcat(e1, e2);
    assert "" + "" == "";
    if GetsThrough(c1, last, marshal) {
      RememberOne(ids + SentIds(e1), c1.sent, last.id);
      assert ids + SentIds(e1 + e2) == ids + SentIds(e1) + [last.id];
    } else {
      assert ids + SentIds(e1 + e2) == ids + SentIds(e1) && c2.sent == c1.sent;
    }
    forall id ensures id in c2.sent <==> id in c.sent || Sendable(calls + [last], marshal, id) {
      SendableSnoc(calls, last, marshal, id);
    }
  }

  lemma {:induction false} ToolsSend(c: Conv, calls: seq<ToolCall>, marshal: string -> Option<string>, ids: seq<string>)
    requires Remembered(ids, c.sent)
    ensures var (c', es) := ToolSteps(c, calls, marshal); CallsSent(c, ids, calls, marshal, c', es)
  {
    hide ToolStep;
    if calls == [] {
      assert ids + SentIds([]) == ids;
    } else {
      hide CallsSent;
      var init, last := calls[..|calls| - 1], calls[|calls| - 1];
      ToolsSend(c, init, marshal, ids);
      var (c1, e1) := ToolSteps(c, init, marshal);
      OneMoreCall(c, ids, init, marshal, c1, e1, last);
      assert init + [last] == calls;
    }
  }

  lemma SendableSnoc(calls: seq<ToolCall>, last: ToolCall, marshal: string -> Option<string>, id: string)
    ensures Sendable(calls + [last], marshal, id) <==>
      Sendable(calls, marshal, id) || (last.id == id && marshal(last.args).Some?)
  {
    var all := calls + [last];
    if Sendable(calls, marshal, id) {
      var i :| 0 <= i < |calls| && calls[i].id == id && marshal(calls[i].args).Some?;
      assert all[i].id == id && marshal(all[i].args).Some?;
    }
    if last.id == id && marshal(last.args).Some? { assert all[|calls|].id == id && marshal(all[|calls|].args).Some?; }
  }

  lemma {:induction false} SendableConcat(a: seq<ToolCall>, b: seq<ToolCall>, marshal: string -> Option<string>,
                                          id: string)
    ensures Sendable(a + b, marshal, id) <==> Sendable(a, marshal, id) || Sendable(b, marshal, id)
  {
    hide Sendable;
    if b == [] {
      assert a + b == a;
      assert !Sendable(b, marshal, id) by { NoneSendable(marshal, id); }
    } else {
      var init, last := b[..|b| - 1], b[|b| - 1];
      SendableConcat(a, init, marshal, id);
      SendableSnoc(a + init, last, marshal, id);
      SendableSnoc(init, last, marshal, id);
      assert a + init + [last] == a + b && init + [last] == b;
    }
  }

  lemma NoneSendable(marshal: string -> Option<string>, id: string)
    ensures !Sendable([], marshal, id)
  {}

  /** Closing the message sends nothing. */
  lemma EndsSend(c: Conv, r: Response)
    ensures Sends(BeginStep(c, r.metrics).1, "", "", []) && Sends(DoneStep(c, r).1, "", "", [])
  {
    hide Sends;
    SendsNothing();
    SendsOne(MessageStart(StartUsage(c, r.metrics)));
    if r.done {
      var stop, u := MapStopReason(r.doneReason, |c.sent| > 0), UsageFromMetrics(r.metrics);
      SendsOne(BlockStop(c.index));
      SendsOne(MessageDelta(stop, u));
      SendsOne(MessageStop);
      SendsBoth([MessageDelta(stop, u)], "", "", [], [MessageStop], "", "", []);
      assert [MessageDelta(stop, u)] + [MessageStop] == [MessageDelta(stop, u), MessageStop];
      var first: seq<StreamEvent> := if c.textStarted || ThinkingOpen(c) then [BlockStop(c.index)] else [];
      SendsBoth(first, "", "", [], [MessageDelta(stop, u), MessageStop], "", "", []);
    }
  }

  lemma StepSends(c: Conv, r: Response, marshal: string -> Option<string>, ids: seq<string>)
    requires Remembered(ids, c.sent)
    ensures var (c', es) := Step(c, r, marshal);
      && SentText(es) == r.content && SentThinking(es) == (if c.thinkingDone then "" else r.thinking)
      && Remembered(ids + SentIds(es), c'.sent)
      && (c.thinkingDone ==> c'.thinkingDone)
      && forall id :: id in c'.sent <==> id in c.sent || Sendable(r.calls, marshal, id)
  {
    hide SentText, SentThinking, SentIds, CloseText, CloseThinking, ToolSteps, Remembered, Sendable, MapStopReason;
    var (c1, e1) := BeginStep(c, r.metrics);
    var (c2, e2) := ThinkingStep(c1, r.thinking);
    var (c3, e3) := TextStep(c2, r.content);
    var (c4, e4) := ToolSteps(c3, r.calls, marshal);
    var (c5, e5) := DoneStep(c4, r);
    EndsSend(c, r);
    ThinkingSends(c1, r.thinking);
    TextSends(c2, r.content);
    SentBefore(c, r);
    ToolsSend(c3, r.calls, marshal, ids);
    EndsSend(c4, r);
    ToolsKeepDone(c3, r.calls, marshal);
    SentConcat(e1, e2);
    SentConcat(e1 + e2, e3);
    SentConcat(e1 + e2 + e3, e4);
    SentConcat(e1 + e2 + e3 + e4, e5);
    assert SentIds(e1 + e2 + e3 + e4 + e5) == SentIds(e4);
  }

  /** Neither thinking nor text touches what was sent, or reopens thinking. */
  lemma SentBefore(c: Conv, r: Response)
    ensures var c1 := BeginStep(c, r.metrics).0;
      var c2 := ThinkingStep(c1, r.thinking).0;
      var c3 := TextStep(c2, r.content).0;
      && c1.thinkingDone == c.thinkingDone && c3.sent == c.sent
      && (c.thinkingDone ==> c3.thinkingDone)
  {}

  lemma {:induction false} ToolsKeepDone(c: Conv, calls: seq<ToolCall>, marshal: string -> Option<string>)
    ensures c.thinkingDone ==> ToolSteps(c, calls, marshal).0.thinkingDone
  {
    if calls != [] {
      ToolsKeepDone(c, calls[..|calls| - 1], marshal);
      var c1 := ToolSteps(c, calls[..|calls| - 1], marshal).0;
      assert c1.thinkingDone ==> ToolStep(c1, calls[|calls| - 1], marshal).0.thinkingDone;
    }
  }

  /** Over any chunks, the text sent is all the text in order, the thinking sent is a prefix of all the thinking, no
      tool ID is sent twice, and the IDs sent are exactly those of calls whose arguments marshal. */
  lemma {:induction false} StreamSends(estimated: int, rs: seq<Response>, marshal: string -> Option<string>)
    ensures var (c, es) := Stream(NewConv(estimated), rs, marshal);
      && SentText(es) == AllText(rs)
      && SentThinking(es) <= AllThinking(rs) && (!c.thinkingDone ==> SentThinking(es) == AllThinking(rs))
      && Remembered(SentIds(es), c.sent)
      && forall id :: id in c.sent <==> Sendable(AllCalls(rs), marshal, id)
  {
    if rs != [] {
      var init, last := rs[..|rs| - 1], rs[|rs| - 1];
      StreamSends(estimated, init, marshal);
      var (c1, e1) := Stream(NewConv(estimated), init, marshal);
      var (c2, e2) := Step(c1, last, marshal);
      hide Step, Remembered, Sendable, SentText, SentThinking, SentIds, Stream;
      StepSends(c1, last, marshal, SentIds(e1));
      SentConcat(e1, e2);
      assert !c1.thinkingDone || SentThinking(e2) == "";
      assert SentThinking(e1 + e2) <= AllThinking(rs);
      forall id ensures id in c2.sent <==> Sendable(AllCalls(rs), marshal, id) {
        SendableConcat(AllCalls(init), last.calls, marshal, id);
      }
      assert Stream(NewConv(estimated), rs, marshal) == (c2, e1 + e2) by { StreamSnoc(estimated, rs, marshal); }
    } else {
      assert Distinct([]);
      assert forall id :: !Sendable([], marshal, id);
    }
  }

  lemma StreamSnoc(estimated: int, rs: seq<Response>, marshal: string -> Option<string>)
    requires rs != []
    ensures var (c1, e1) := Stream(NewConv(estimated), rs[..|rs| - 1], marshal);
      var (c2, e2) := Step(c1, rs[|rs| - 1], marshal);
      Stream(NewConv(estimated), rs, marshal) == (c2, e1 + e2)
  {
    hide Step;
  }
}
