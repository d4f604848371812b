/** anthropic/anthropic.go: the one-shot response and the stream converter. */
module AnthropicStream {
  datatype Option<+T> = None | Some(value: T)

  /** A tool call; its arguments stand for whatever is marshalled to JSON. */
  datatype ToolCall = ToolCall(id: string, name: string, args: string)

  datatype Metrics = Metrics(promptEvalCount: int, promptEvalCachedCount: Option<int>, evalCount: int)

  /** One chat response: a whole one, or one chunk of a stream. */
  datatype Response = Response(
    thinking: string, content: string, calls: seq<ToolCall>, done: bool, doneReason: string, metrics: Metrics)

  datatype Usage = Usage(input: int, cacheRead: Option<int>, output: int)

  datatype Block = Thinking(text: string) | Text(text: string) | ToolUse(id: string, name: string, input: string)

  datatype MessagesResponse = MessagesResponse(content: seq<Block>, stopReason: string, usage: Usage)

  datatype BlockKind = ThinkingBlock | TextBlock | ToolBlock(id: string, name: string)

  datatype Delta = ThinkingDelta(text: string) | TextDelta(text: string) | JsonDelta(json: string)

  datatype StreamEvent =
    | MessageStart(usage: Usage)
    | BlockStart(index: nat, kind: BlockKind)
    | BlockDelta(index: nat, delta: Delta)
    | BlockStop(index: nat)
    | MessageDelta(stopReason: string, usage: Usage)
    | MessageStop

  // ----- usage and stop reason

  function Max(a: int, b: int): int { if a < b then b else a }
  function Min(a: int, b: int): int { if a < b then a else b }

  function IntValue(v: Option<int>): int { if v.Some? then v.value else 0 }

  function UsageFromMetrics(m: Metrics): Usage {
    var total := Max(0, m.promptEvalCount);
    var cached := if m.promptEvalCachedCount.Some? then Some(Min(Max(0, m.promptEvalCachedCount.value), total))
      else None;
    Usage(total - IntValue(cached), cached, m.evalCount)
  }

  /** The usage accounts for every token: the output's, and the prompt's as cached and uncached ones. The cached ones
      are reported if they were counted, as counted but neither negative nor more than the prompt. */
  predicate Accounts(u: Usage, m: Metrics) {
    && u.output == m.evalCount && u.input >= 0
    && match (u.cacheRead, m.promptEvalCachedCount)
       case (Some(cached), Some(counted)) =>
         && u.input + cached == PromptTokens(m) && cached >= 0
         && (cached < counted ==> u.input == 0) && (cached > counted ==> cached == 0)
       case (None, None) => u.input == PromptTokens(m)
       case _ => false
  }

  function PromptTokens(m: Metrics): nat { if m.promptEvalCount < 0 then 0 else m.promptEvalCount }

  lemma UsageAccounts(m: Metrics)
    ensures Accounts(UsageFromMetrics(m), m)
  {}

  /** The usage announced at the start: a prompt without tokens is given the estimate, and nothing has been put out. */
  predicate Opens(u: Usage, m: Metrics, estimated: int) {
    && u.output == 0
    && if PromptTokens(m) == 0 && estimated > 0 then u.input == estimated && IntValue(u.cacheRead) == 0
       else Accounts(u.(output := m.evalCount), m)
  }

  function MapStopReason(reason: string, hasToolCalls: bool): string {
    if hasToolCalls then "tool_use"
    else if reason == "stop" then "end_turn"
    else if reason == "length" then "max_tokens"
    else if reason != "" then "stop_sequence"
    else ""
  }

  // ----- the one-shot form

  function ToolBlocks(calls: seq<ToolCall>): seq<Block> {
    if calls == [] then []
    else
      var c := calls[|calls| - 1];
      ToolBlocks(calls[..|calls| - 1]) + [ToolUse(c.id, c.name, c.args)]
  }

  function ContentBlocks(thinking: string, content: string, calls: seq<ToolCall>): seq<Block> {
    (if thinking != "" then [Thinking(thinking)] else [])
    + (if content != "" then [Text(content)] else [])
    + ToolBlocks(calls)
  }

  /** ToMessagesResponse */
  method ToMessagesResponse(r: Response) returns (m: MessagesResponse)
    ensures m.content == ContentBlocks(r.thinking, r.content, r.calls)
    ensures m.stopReason == MapStopReason(r.doneReason, |r.calls| > 0)
    ensures r.calls != [] ==> m.stopReason == "tool_use"
    ensures r.calls == [] ==>
      && (r.doneReason == "stop" ==> m.stopReason == "end_turn")
      && (r.doneReason == "length" ==> m.stopReason == "max_tokens")
      && (r.doneReason == "" ==> m.stopReason == "")
      && (r.doneReason !in {"stop", "length", ""} ==> m.stopReason == "stop_sequence")
    ensures m.usage == UsageFromMetrics(r.metrics) && Accounts(m.usage, r.metrics)
  {
    var content: seq<Block> := [];
    if r.thinking != "" {
      content := content + [Thinking(r.thinking)];
    }
    if r.content != "" {
      content := content + [Text(r.content)];
    }
    ghost var before := content;
    for i := 0 to |r.calls|
      invariant content == before + ToolBlocks(r.calls[..i])
    {
      var tc := r.calls[i];
      assert r.calls[..i + 1][..i] == r.calls[..i];
      content := content + [ToolUse(tc.id, tc.name, tc.args)];
    }
    assert r.calls[..|r.calls|] == r.calls;
    UsageAccounts(r.metrics);
    m := MessagesResponse(content, MapStopReason(r.doneReason, |r.calls| > 0), UsageFromMetrics(r.metrics));
  }

  // ----- the converter's state, and what a chunk does to it

  datatype Conv = Conv(
    firstWrite: bool, index: nat, input: int, cacheRead: Option<int>, output: int, estimated: int,
    thinkingStarted: bool, thinkingDone: bool, textStarted: bool, sent: set<string>)

  predicate ThinkingOpen(c: Conv) { c.thinkingStarted && !c.thinkingDone }

  function NewConv(estimated: int): Conv {
    Conv(true, 0, 0, None, 0, estimated, false, false, false, {})
  }

  /** The prompt tokens announced at the start: the first chunk's, or the estimate if it has none. */
  function StartUsage(c: Conv, m: Metrics): Usage {
    var u := UsageFromMetrics(m);
    var input := if u.input == 0 && IntValue(u.cacheRead) == 0 && c.estimated > 0 then c.estimated else u.input;
    Usage(input, u.cacheRead, 0)
  }

  function BeginStep(c: Conv, m: Metrics): (Conv, seq<StreamEvent>) {
    if !c.firstWrite then (c, [])
    else
      var u := StartUsage(c, m);
      (c.(firstWrite := false, input := u.input, cacheRead := u.cacheRead), [MessageStart(u)])
  }

  function CloseText(c: Conv): (Conv, seq<StreamEvent>) {
    if c.textStarted then (c.(index := c.index + 1, textStarted := false), [BlockStop(c.index)]) else (c, [])
  }

  function CloseThinking(c: Conv): (Conv, seq<StreamEvent>) {
    if ThinkingOpen(c) then (c.(index := c.index + 1, thinkingDone := true), [BlockStop(c.index)]) else (c, [])
  }

  function ThinkingStep(c: Conv, thinking: string): (Conv, seq<StreamEvent>) {
    if thinking == "" || c.thinkingDone then (c, [])
    else
      var (c1, e1) := CloseText(c);
      var c2 := c1.(thinkingStarted := true);
      (c2, e1 + (if c1.thinkingStarted then [] else [BlockStart(c1.index, ThinkingBlock)])
           + [BlockDelta(c1.index, ThinkingDelta(thinking))])
  }

  function TextStep(c: Conv, content: string): (Conv, seq<StreamEvent>) {
    if content == "" then (c, [])
    else
      var (c1, e1) := CloseThinking(c);
      var c2 := c1.(textStarted := true);
      (c2, e1 + (if c1.textStarted then [] else [BlockStart(c1.index, TextBlock)])
           + [BlockDelta(c1.index, TextDelta(content))])
  }

  /** One tool call: blocks before it are closed even when its arguments cannot be marshalled. */
  function ToolStep(c: Conv, call: ToolCall, marshal: string -> Option<string>): (Conv, seq<StreamEvent>) {
    if call.id in c.sent then (c, [])
    else
      var (c1, e1) := CloseThinking(c);
      var (c2, e2) := CloseText(c1);
      match marshal(call.args)
      case None => (c2, e1 + e2)
      case Some(json) => (c2.(sent := c2.sent + {call.id}, index := c2.index + 1),
                          e1 + e2 + ToolEvents(c2.index, call, json))
  }

  function ToolEvents(i: nat, call: ToolCall, json: string): seq<StreamEvent> {
    [BlockStart(i, ToolBlock(call.id, call.name)), BlockDelta(i, JsonDelta(json)), BlockStop(i)]
  }

  function ToolSteps(c: Conv, calls: seq<ToolCall>, marshal: string -> Option<string>): (Conv, seq<StreamEvent>) {
    if calls == [] then (c, [])
    else
      var (c1, e1) := ToolSteps(c, calls[..|calls| - 1], marshal);
      var (c2, e2) := ToolStep(c1, calls[|calls| - 1], marshal);
      (c2, e1 + e2)
  }

  function DoneStep(c: Conv, r: Response): (Conv, seq<StreamEvent>) {
    if !r.done then (c, [])
    else
      var u := UsageFromMetrics(r.metrics);
      (c.(input := u.input, cacheRead := u.cacheRead, output := u.output),
       (if c.textStarted || ThinkingOpen(c) then [BlockStop(c.index)] else [])
       + [MessageDelta(MapStopReason(r.doneReason, |c.sent| > 0), u), MessageStop])
  }

  function Step(c: Conv, r: Response, marshal: string -> Option<string>): (Conv, seq<StreamEvent>) {
    var (c1, e1) := BeginStep(c, r.metrics);
    var (c2, e2) := ThinkingStep(c1, r.thinking);
    var (c3, e3) := TextStep(c2, r.content);
    var (c4, e4) := ToolSteps(c3, r.calls, marshal);
    var (c5, e5) := DoneStep(c4, r);
    (c5, e1 + e2 + e3 + e4 + e5)
  }

  /** The state and all the events after some chunks. */
  function Stream(c: Conv, rs: seq<Response>, marshal: string -> Option<string>): (Conv, seq<StreamEvent>) {
    if rs == [] then (c, [])
    else
      var (c1, e1) := Stream(c, rs[..|rs| - 1], marshal);
      var (c2, e2) := Step(c1, rs[|rs| - 1], marshal);
      (c2, e1 + e2)
  }

  // ----- the converter

  class StreamConverter {
    var firstWrite: bool
    var contentIndex: nat
    var inputTokens: int
    var cacheReadTokens: Option<int>
    var outputTokens: int
    const estimatedInputTokens: int
    var thinkingStarted: bool
    var thinkingDone: bool
    var textStarted: bool
    var toolCallsSent: set<string>

    constructor (estimatedInputTokens: int)
      ensures State() == NewConv(estimatedInputTokens)
    {
      firstWrite, contentIndex, this.estimatedInputTokens := true, 0, estimatedInputTokens;
      inputTokens, cacheReadTokens, outputTokens := 0, None, 0;
      thinkingStarted, thinkingDone, textStarted, toolCallsSent := false, false, false, {};
    }

    ghost function State(): Conv
      reads this
    {
      Conv(firstWrite, contentIndex, inputTokens, cacheReadTokens, outputTokens, estimatedInputTokens,
           thinkingStarted, thinkingDone, textStarted, toolCallsSent)
    }

    method Begin(metrics: Metrics) returns (events: seq<StreamEvent>)
      modifies this
      ensures (State(), events) == BeginStep(old(State()), metrics)
    {
      events := [];
      if firstWrite {
        firstWrite := false;
        var usage := UsageFromMetrics(metrics);
        inputTokens, cacheReadTokens := usage.input, usage.cacheRead;
        if inputTokens == 0 && IntValue(cacheReadTokens) == 0 && estimatedInputTokens > 0 {
          inputTokens := estimatedInputTokens;
        }
        events := events + [MessageStart(Usage(inputTokens, cacheReadTokens, 0))];
      }
      assert events == BeginStep(old(State()), metrics).1;
    }

    method SendThinking(thinking: string) returns (events: seq<StreamEvent>)
      modifies this
      ensures (State(), events) == ThinkingStep(old(State()), thinking)
    {
      events := [];
      if thinking != "" && !thinkingDone {
        if textStarted {
          events := events + [BlockStop(contentIndex)];
          contentIndex := contentIndex + 1;
          textStarted := false;
        }
        if !thinkingStarted {
          thinkingStarted := true;
          events := events + [BlockStart(contentIndex, ThinkingBlock)];
        }
        events := events + [BlockDelta(contentIndex, ThinkingDelta(thinking))];
      }
      assert events == ThinkingStep(old(State()), thinking).1;
    }

    method SendText(content: string) returns (events: seq<StreamEvent>)
      modifies this
      ensures (State(), events) == TextStep(old(State()), content)
    {
      events := [];
      if content != "" {
        if thinkingStarted && !thinkingDone {
          thinkingDone := true;
          events := events + [BlockStop(contentIndex)];
          contentIndex := contentIndex + 1;
        }
        if !textStarted {
          textStarted := true;
          events := events + [BlockStart(contentIndex, TextBlock)];
        }
        events := events + [BlockDelta(contentIndex, TextDelta(content))];
      }
      assert events == TextStep(old(State()), content).1;
    }

    method SendTool(tc: ToolCall, marshal: string -> Option<string>) returns (events: seq<StreamEvent>)
      modifies this
      ensures (State(), events) == ToolStep(old(State()), tc, marshal)
    {
      events := [];
      if tc.id in toolCallsSent {
        return;
      }
      if thinkingStarted && !thinkingDone {
        thinkingDone := true;
        events := events + [BlockStop(contentIndex)];
        contentIndex := contentIndex + 1;
      }
      if textStarted {
        events := events + [BlockStop(contentIndex)];
        contentIndex := contentIndex + 1;
        textStarted := false;
      }
      var json := marshal(tc.args);
      if json.None? {
        assert events == ToolStep(old(State()), tc, marshal).1;
        return;
      }
      events := events + ToolEvents(contentIndex, tc, json.value);
      toolCallsSent := toolCallsSent + {tc.id};
      contentIndex := contentIndex + 1;
      assert events == ToolStep(old(State()), tc, marshal).1;
    }

    method Finish(r: Response) returns (events: seq<StreamEvent>)
      modifies this
      ensures (State(), events) == DoneStep(old(State()), r)
    {
      events := [];
      if r.done {
        if textStarted {
          events := events + [BlockStop(contentIndex)];
        } else if thinkingStarted && !thinkingDone {
          events := events + [BlockStop(contentIndex)];
        }
        var usage := UsageFromMetrics(r.metrics);
        inputTokens, cacheReadTokens, outputTokens := usage.input, usage.cacheRead, usage.output;
        var stopReason := MapStopReason(r.doneReason, |toolCallsSent| > 0);
        events := events + [MessageDelta(stopReason, Usage(inputTokens, cacheReadTokens, outputTokens))];
        events := events + [MessageStop];
      }
      assert events == DoneStep(old(State()), r).1;
    }

    /** One chunk of the stream. */
    method Process(r: Response, marshal: string -> Option<string>) returns (events: seq<StreamEvent>)
      modifies this
      ensures (State(), events) == Step(old(State()), r, marshal)
    {
      hide BeginStep, ThinkingStep, TextStep, ToolStep, DoneStep;
      var begin := Begin(r.metrics);
      var thinking := SendThinking(r.thinking);
      var text := SendText(r.content);
      ghost var before := State();
      var tools: seq<StreamEvent> := [];
      for i := 0 to |r.calls|
        invariant (State(), tools) == ToolSteps(before, r.calls[..i], marshal)
      {
        assert r.calls[..i + 1][..i] == r.calls[..i];
        var one := SendTool(r.calls[i], marshal);
        tools := tools + one;
      }
      assert r.calls[..|r.calls|] == r.calls;
      var end := Finish(r);
      events := begin + thinking + text + tools + end;
    }
  }
}
