/** What every stream of events looks like, whatever the chunks are. */
module StreamGrammar {
  import opened AnthropicStream

  // ----- an acceptor for event streams

  /** Before the start, between blocks, inside a block, after the message delta, at the end; or refused. */
  datatype Place = Fresh | Between(next: nat) | Inside(index: nat, kind: BlockKind) | Closing | Ended | Refused

  predicate Fits(kind: BlockKind, d: Delta) {
    match kind
    case ThinkingBlock => d.ThinkingDelta?
    case TextBlock => d.TextDelta?
    case ToolBlock(_, _) => d.JsonDelta?
  }

  function Accept(p: Place, e: StreamEvent): Place {
    match e
    case MessageStart(_) => if p.Fresh? then Between(0) else Refused
    case BlockStart(i, kind) => if p == Between(i) then Inside(i, kind) else Refused
    case BlockDelta(i, d) => if p.Inside? && p.index == i && Fits(p.kind, d) then p else Refused
    case BlockStop(i) => if p.Inside? && p.index == i then Between(i + 1) else Refused
    case MessageDelta(_, _) => if p.Between? then Closing else Refused
    case MessageStop => if p.Closing? then Ended else Refused
  }

  function AcceptAll(p: Place, es: seq<StreamEvent>): Place {
    if es == [] then p else Accept(AcceptAll(p, es[..|es| - 1]), es[|es| - 1])
  }

  lemma {:induction false} AcceptConcat(p: Place, a: seq<StreamEvent>, b: seq<StreamEvent>)
    ensures AcceptAll(p, a + b) == AcceptAll(AcceptAll(p, a), b)
  {
    hide Accept;
    if b == [] {
      assert a + b == a;
    } else {
      AcceptConcat(p, a, b[..|b| - 1]);
      assert (a + b)[..|a + b| - 1] == a + b[..|b| - 1];
    }
  }

  lemma AcceptOne(p: Place, e: StreamEvent)
    ensures AcceptAll(p, [e]) == Accept(p, e)
  {
    hide Accept;
    assert [e][..0] == [] && AcceptAll(p, []) == p;
  }

  lemma AcceptTwo(p: Place, e1: StreamEvent, e2: StreamEvent)
    ensures AcceptAll(p, [e1, e2]) == Accept(Accept(p, e1), e2)
  {
    hide Accept;
    AcceptOne(p, e1);
    assert [e1, e2][..1] == [e1];
  }

  lemma AcceptThree(p: Place, e1: StreamEvent, e2: StreamEvent, e3: StreamEvent)
    ensures AcceptAll(p, [e1, e2, e3]) == Accept(Accept(Accept(p, e1), e2), e3)
  {
    hide Accept;
    AcceptTwo(p, e1, e2);
    assert [e1, e2, e3][..2] == [e1, e2];
  }

  // ----- where the converter is

  /** Text and thinking are never open at once. */
  predicate Valid(c: Conv) { !(c.textStarted && ThinkingOpen(c)) }

  function PlaceOf(c: Conv): Place {
    if c.firstWrite then Fresh
    else if c.textStarted then Inside(c.index, TextBlock)
    else if ThinkingOpen(c) then Inside(c.index, ThinkingBlock)
    else Between(c.index)
  }

  /** A step keeps the state valid and its events lead from the old place to the new one. */
  ghost predicate Leads(c: Conv, step: (Conv, seq<StreamEvent>)) {
    Valid(step.0) && !step.0.firstWrite && AcceptAll(PlaceOf(c), step.1) == PlaceOf(step.0)
  }

  lemma NoEvents(c: Conv)
    requires Valid(c) && !c.firstWrite
    ensures Leads(c, (c, []))
  {}

  lemma ThenLeads(c: Conv, c1: Conv, e1: seq<StreamEvent>, c2: Conv, e2: seq<StreamEvent>)
    requires Leads(c, (c1, e1)) && Leads(c1, (c2, e2))
    ensures Leads(c, (c2, e1 + e2))
  {
    AcceptConcat(PlaceOf(c), e1, e2);
  }

  lemma BeginLeads(c: Conv, m: Metrics)
    requires Valid(c) && (c.firstWrite ==> c.index == 0 && !c.textStarted && !c.thinkingStarted)
    ensures Leads(c, BeginStep(c, m))
  {
    if c.firstWrite { AcceptOne(Fresh, MessageStart(StartUsage(c, m))); }
  }

  lemma CloseTextLeads(c: Conv)
    requires Valid(c) && !c.firstWrite
    ensures Leads(c, CloseText(c))
  {
    if c.textStarted { AcceptOne(PlaceOf(c), BlockStop(c.index)); }
  }

  lemma CloseThinkingLeads(c: Conv)
    requires Valid(c) && !c.firstWrite
    ensures Leads(c, CloseThinking(c))
  {
    if ThinkingOpen(c) { AcceptOne(PlaceOf(c), BlockStop(c.index)); }
  }

  /** Opening a block if none is open, and a delta in it. */
  lemma OpenLeads(c: Conv, c': Conv, kind: BlockKind, d: Delta)
    requires Valid(c') && !c'.firstWrite && !c.firstWrite && Fits(kind, d) && PlaceOf(c') == Inside(c.index, kind)
    requires PlaceOf(c) == Between(c.index) || PlaceOf(c) == Inside(c.index, kind)
    ensures var start := if PlaceOf(c) == Between(c.index) then [BlockStart(c.index, kind)] else [];
      Leads(c, (c', start + [BlockDelta(c.index, d)]))
  {
    var start, delta := BlockStart(c.index, kind), BlockDelta(c.index, d);
    if PlaceOf(c) == Between(c.index) {
      AcceptTwo(PlaceOf(c), start, delta);
      assert [start] + [delta] == [start, delta];
    } else {
      AcceptOne(PlaceOf(c), delta);
      assert [] + [delta] == [delta];
    }
  }

  lemma ThinkingLeads(c: Conv, thinking: string)
    requires Valid(c) && !c.firstWrite
    ensures Leads(c, ThinkingStep(c, thinking))
  {
    hide Leads;
    NoEvents(c);
    if thinking != "" && !c.thinkingDone {
      CloseTextLeads(c);
      var (c1, e1) := CloseText(c);
      var c2 := c1.(thinkingStarted := true);
      OpenLeads(c1, c2, ThinkingBlock, ThinkingDelta(thinking));
      var start: seq<StreamEvent> := if c1.thinkingStarted then [] else [BlockStart(c1.index, ThinkingBlock)];
      ThenLeads(c, c1, e1, c2, start + [BlockDelta(c1.index, ThinkingDelta(thinking))]);
      Cat(e1, start, [BlockDelta(c1.index, ThinkingDelta(thinking))]);
    }
  }

  lemma Cat<T>(a: seq<T>, b: seq<T>, c: seq<T>)
    ensures a + b + c == a + (b + c)
  {}

  lemma TextLeads(c: Conv, content: string)
    requires Valid(c) && !c.firstWrite
    ensures Leads(c, TextStep(c, content))
  {
    hide Leads;
    NoEvents(c);
    if content != "" {
      CloseThinkingLeads(c);
      var (c1, e1) := CloseThinking(c);
      var c2 := c1.(textStarted := true);
      OpenLeads(c1, c2, TextBlock, TextDelta(content));
      var start: seq<StreamEvent> := if c1.textStarted then [] else [BlockStart(c1.index, TextBlock)];
      ThenLeads(c, c1, e1, c2, start + [BlockDelta(c1.index, TextDelta(content))]);
      Cat(e1, start, [BlockDelta(c1.index, TextDelta(content))]);
    }
  }

  lemma ToolLeads(c: Conv, call: ToolCall, marshal: string -> Option<string>)
    requires Valid(c) && !c.firstWrite
    ensures Leads(c, ToolStep(c, call, marshal))
  {
    hide Leads;
    NoEvents(c);
    if call.id !in c.sent {
      CloseThinkingLeads(c);
      var (c1, e1) := CloseThinking(c);
      LeadsFacts(c, c1, e1);
      CloseTextLeads(c1);
      var (c2, e2) := CloseText(c1);
      ThenLeads(c, c1, e1, c2, e2);
      var json := marshal(call.args);
      if json.Some? {
        var c3 := c2.(sent := c2.sent + {call.id}, index := c2.index + 1);
        ToolBlockLeads(c2, c3, call, json.value);
        ThenLeads(c, c2, e1 + e2, c3, ToolEvents(c2.index, call, json.value));
      }
    }
  }

  lemma LeadsFacts(c: Conv, c1: Conv, e1: seq<StreamEvent>)
    requires Leads(c, (c1, e1))
    ensures Valid(c1) && !c1.firstWrite
  {}

  lemma ToolBlockLeads(c: Conv, c': Conv, call: ToolCall, json: string)
    requires !c.firstWrite && !c.textStarted && !ThinkingOpen(c)
    requires c' == c.(sent := c.sent + {call.id}, index := c.index + 1)
    ensures Leads(c, (c', ToolEvents(c.index, call, json)))
  {
    AcceptThree(PlaceOf(c), BlockStart(c.index, ToolBlock(call.id, call.name)), BlockDelta(c.index, JsonDelta(json)),
                BlockStop(c.index));
  }

  lemma {:induction false} ToolsLead(c: Conv, calls: seq<ToolCall>, marshal: string -> Option<string>)
    requires Valid(c) && !c.firstWrite
    ensures Leads(c, ToolSteps(c, calls, marshal))
  {
    hide Leads, ToolStep;
    NoEvents(c);
    if calls != [] {
      var (c1, e1) := ToolSteps(c, calls[..|calls| - 1], marshal);
      var (c2, e2) := ToolStep(c1, calls[|calls| - 1], marshal);
      ToolsLead(c, calls[..|calls| - 1], marshal);
      LeadsFacts(c, c1, e1);
      ToolLeads(c1, calls[|calls| - 1], marshal);
      ThenLeads(c, c1, e1, c2, e2);
    }
  }

  /** The last chunk closes the open block and ends the message. */
  lemma DoneEnds(c: Conv, r: Response)
    requires Valid(c) && !c.firstWrite && r.done
    ensures AcceptAll(PlaceOf(c), DoneStep(c, r).1) == Ended
  {
    var u := UsageFromMetrics(r.metrics);
    var stop := MapStopReason(r.doneReason, |c.sent| > 0);
    if c.textStarted || ThinkingOpen(c) {
      AcceptThree(PlaceOf(c), BlockStop(c.index), MessageDelta(stop, u), MessageStop);
      assert [BlockStop(c.index)] + [MessageDelta(stop, u), MessageStop]
        == [BlockStop(c.index), MessageDelta(stop, u), MessageStop];
    } else {
      AcceptTwo(PlaceOf(c), MessageDelta(stop, u), MessageStop);
      assert [] + [MessageDelta(stop, u), MessageStop] == [MessageDelta(stop, u), MessageStop];
    }
  }

  /** The state between chunks. */
  predicate Ready(c: Conv) {
    Valid(c) && (c.firstWrite ==> c.index == 0 && !c.textStarted && !c.thinkingStarted)
  }

  lemma StepLeads(c: Conv, r: Response, marshal: string -> Option<string>)
    requires Ready(c)
    ensures var (c', es) := Step(c, r, marshal);
      if r.done then AcceptAll(PlaceOf(c), es) == Ended else Leads(c, (c', es)) && Ready(c')
  {
    hide Leads, BeginStep, ThinkingStep, TextStep, ToolSteps, DoneStep, AcceptAll;
    BeginLeads(c, r.metrics);
    var (c1, e1) := BeginStep(c, r.metrics);
    LeadsFacts(c, c1, e1);
    ThinkingLeads(c1, r.thinking);
    var (c2, e2) := ThinkingStep(c1, r.thinking);
    LeadsFacts(c1, c2, e2);
    ThenLeads(c, c1, e1, c2, e2);
    TextLeads(c2, r.content);
    var (c3, e3) := TextStep(c2, r.content);
    LeadsFacts(c2, c3, e3);
    ThenLeads(c, c2, e1 + e2, c3, e3);
    ToolsLead(c3, r.calls, marshal);
    var (c4, e4) := ToolSteps(c3, r.calls, marshal);
    LeadsFacts(c3, c4, e4);
    ThenLeads(c, c3, e1 + e2 + e3, c4, e4);
    EndOfStep(c, c4, e1 + e2 + e3 + e4, r);
  }

  lemma EndOfStep(c: Conv, c4: Conv, es: seq<StreamEvent>, r: Response)
    requires Leads(c, (c4, es))
    ensures var (c5, e5) := DoneStep(c4, r);
      if r.done then AcceptAll(PlaceOf(c), es + e5) == Ended else Leads(c, (c5, es + e5)) && Ready(c5)
  {
    var (c5, e5) := DoneStep(c4, r);
    if r.done {
      DoneEnds(c4, r);
      AcceptConcat(PlaceOf(c), es, e5);
    } else {
      assert es + [] == es;
    }
  }

  /** Only the last chunk, if any, is done. */
  predicate DoneLast(rs: seq<Response>) {
    forall i :: 0 <= i < |rs| - 1 ==> !rs[i].done
  }

  /** Every stream: one message start, then blocks start(i) delta* stop(i) with i = 0, 1, 2, ... and nothing between
      them, each delta of its block's kind, then after a last chunk that is done a message delta and a message stop. */
  lemma {:induction false} StreamAccepted(estimated: int, rs: seq<Response>, marshal: string -> Option<string>)
    requires DoneLast(rs)
    ensures var (c, es) := Stream(NewConv(estimated), rs, marshal);
      if rs != [] && rs[|rs| - 1].done then AcceptAll(Fresh, es) == Ended
      else AcceptAll(Fresh, es) == PlaceOf(c) && Ready(c)
  {
    hide Step, AcceptAll;
    if rs == [] {
      assert AcceptAll(Fresh, []) == Fresh by { EmptyAccepted(); }
    } else {
      var init, last := rs[..|rs| - 1], rs[|rs| - 1];
      StreamAccepted(estimated, init, marshal);
      var (c1, e1) := Stream(NewConv(estimated), init, marshal);
      assert init != [] ==> !init[|init| - 1].done;
      StepLeads(c1, last, marshal);
      var (c2, e2) := Step(c1, last, marshal);
      AcceptConcat(Fresh, e1, e2);
    }
  }

  lemma EmptyAccepted()
    ensures AcceptAll(Fresh, []) == Fresh
  {}
}
