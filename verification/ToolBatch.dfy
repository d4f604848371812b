/** agent/session.go: running, skipping and refusing a batch of tool calls. */
module ToolBatch {
  import opened Text
  import opened AgentMessages
  import opened ToolBudget
  import opened Compactor
  import opened SessionState

  datatype Stop = GoOn | StopDenied | StopCanceled

  datatype Overflow = Overflow(name: string, id: string, content: string)

  datatype Batch = Batch(messages: seq<Message>, stop: Stop, overflows: seq<Overflow>)

  /** What became of a call. */
  datatype Fate = Ran(ok: bool) | Unknown | Denied | Disabled | Skipped

  function FinishStatus(f: Fate): ToolStatus {
    match f
    case Ran(ok) => if ok then ToolDone else ToolFailed
    case Unknown => ToolFailed
    case Denied => ToolDenied
    case Disabled => ToolDisabled
    case Skipped => ToolSkipped
  }

  /** A call's own events: one finished event, after a started event if it ran. */
  function CallEvents(c: ToolCall, m: Message, f: Fate): seq<Event> {
    (if f.Ran? then [ToolStarted(c.id, c.name)] else []) + [ToolFinished(FinishStatus(f), c.id, c.name, m.content)]
  }

  lemma OnlyFinished(c: ToolCall, m: Message, f: Fate)
    requires !f.Ran?
    ensures CallEvents(c, m, f) == [ToolFinished(FinishStatus(f), c.id, c.name, m.content)]
  {}

  function BatchEvents(calls: seq<ToolCall>, ms: seq<Message>, fates: seq<Fate>): seq<Event>
    requires |calls| == |ms| == |fates|
  {
    if calls == [] then []
    else
      var n := |calls| - 1;
      BatchEvents(calls[..n], ms[..n], fates[..n]) + CallEvents(calls[n], ms[n], fates[n])
  }

  lemma BatchEventsSnoc(calls: seq<ToolCall>, ms: seq<Message>, fates: seq<Fate>, c: ToolCall, m: Message, f: Fate)
    requires |calls| == |ms| == |fates|
    ensures BatchEvents(calls + [c], ms + [m], fates + [f]) == BatchEvents(calls, ms, fates) + CallEvents(c, m, f)
  {
    hide CallEvents;
    var n := |calls|;
    assert (calls + [c])[..n] == calls && (ms + [m])[..n] == ms && (fates + [f])[..n] == fates;
  }

  lemma {:induction false} BatchEventsConcat(calls: seq<ToolCall>, ms: seq<Message>, fates: seq<Fate>,
                                             calls': seq<ToolCall>, ms': seq<Message>, fates': seq<Fate>)
    requires |calls| == |ms| == |fates| && |calls'| == |ms'| == |fates'|
    ensures BatchEvents(calls + calls', ms + ms', fates + fates')
         == BatchEvents(calls, ms, fates) + BatchEvents(calls', ms', fates')
    decreases |calls'|
  {
    hide CallEvents;
    if calls' == [] {
      assert calls + calls' == calls && ms + ms' == ms && fates + fates' == fates;
    } else {
      var n := |calls'| - 1;
      BatchEventsConcat(calls, ms, fates, calls'[..n], ms'[..n], fates'[..n]);
      BatchEventsSnoc(calls + calls'[..n], ms + ms'[..n], fates + fates'[..n], calls'[n], ms'[n], fates'[n]);
      assert calls + calls'[..n] + [calls'[n]] == calls + calls';
      assert ms + ms'[..n] + [ms'[n]] == ms + ms';
      assert fates + fates'[..n] + [fates'[n]] == fates + fates';
    }
  }

  /** Message i is the answer to call i, under the call's own name. */
  ghost predicate AnswerTo(m: Message, c: ToolCall) {
    m == ToolMessage(c.name, c.id, m.content)
  }

  ghost predicate AnswersTo(ms: seq<Message>, calls: seq<ToolCall>) {
    |ms| == |calls| && forall i :: 0 <= i < |calls| ==> AnswerTo(ms[i], calls[i])
  }

  /** The calls are answered in order, each with its events, by messages of the given fates. */
  ghost predicate Answered(calls: seq<ToolCall>, ms: seq<Message>, fates: seq<Fate>, before: seq<Event>,
                           after: seq<Event>) {
    AnswersTo(ms, calls) && |fates| == |calls| && after == before + BatchEvents(calls, ms, fates)
  }

  lemma NoneAnswered(before: seq<Event>)
    ensures Answered([], [], [], before, before)
  {}

  lemma OneMoreAnswered(calls: seq<ToolCall>, ms: seq<Message>, fates: seq<Fate>, before: seq<Event>, after: seq<Event>,
                        c: ToolCall, m: Message, f: Fate, later: seq<Event>)
    requires Answered(calls, ms, fates, before, after)
    requires AnswerTo(m, c) && later == after + CallEvents(c, m, f)
    ensures Answered(calls + [c], ms + [m], fates + [f], before, later)
  {
    hide CallEvents, BatchEvents, AnswerTo;
    BatchEventsSnoc(calls, ms, fates, c, m, f);
  }

  lemma MoreAnswered(calls: seq<ToolCall>, ms: seq<Message>, fates: seq<Fate>, before: seq<Event>, after: seq<Event>,
                     calls': seq<ToolCall>, ms': seq<Message>, fates': seq<Fate>, later: seq<Event>)
    requires Answered(calls, ms, fates, before, after) && Answered(calls', ms', fates', after, later)
    ensures Answered(calls + calls', ms + ms', fates + fates', before, later)
  {
    hide BatchEvents, AnswerTo;
    BatchEventsConcat(calls, ms, fates, calls', ms', fates');
  }

  function AllOf(f: Fate, n: nat): (fates: seq<Fate>)
    ensures |fates| == n && forall i :: 0 <= i < n ==> fates[i] == f
  {
    seq(n, _ => f)
  }

  // ----- skipped, disabled and denied calls

  /** skipToolCalls */
  method SkipToolCalls(s: Session, calls: seq<ToolCall>, content: string) returns (ok: bool, ms: seq<Message>)
    modifies s`events, s`canceled
    ensures ok ==> Answered(calls, ms, AllOf(Skipped, |calls|), old(s.events), s.events)
    ensures ok ==> forall i :: 0 <= i < |ms| ==> ms[i].content == TruncateToolResult(content, MaxToolResultRunes)
    ensures old(s.canceled) ==> s.canceled
  {
    hide TruncateToolResult, Answered, CallEvents;
    ms := [];
    NoneAnswered(s.events);
    for i := 0 to |calls|
      invariant |ms| == i && Answered(calls[..i], ms, AllOf(Skipped, i), old(s.events), s.events)
      invariant forall k :: 0 <= k < i ==> ms[k].content == TruncateToolResult(content, MaxToolResultRunes)
      invariant old(s.canceled) ==> s.canceled
    {
      ghost var was := s.events;
      var call := calls[i];
      var msg := LimitedToolMessage(call.name, call.id, content, MaxToolResultRunes);
      ok := s.EmitIgnoringCanceled(ToolFinished(ToolSkipped, call.id, call.name, msg.content));
      OnlyFinished(call, msg, Skipped);
      NextFate(calls, ms, i, was, old(s.events), msg, Skipped, s.events);
      ms := ms + [msg];
      if !ok {
        return;
      }
    }
    assert calls[..|calls|] == calls;
    ok := true;
  }

  lemma NextFate(calls: seq<ToolCall>, ms: seq<Message>, i: nat, after: seq<Event>, before: seq<Event>,
                 m: Message, f: Fate, later: seq<Event>)
    requires i < |calls| && Answered(calls[..i], ms, AllOf(f, i), before, after)
    requires AnswerTo(m, calls[i]) && later == after + CallEvents(calls[i], m, f)
    ensures Answered(calls[..i + 1], ms + [m], AllOf(f, i + 1), before, later)
  {
    hide Answered, CallEvents;
    OneMoreAnswered(calls[..i], ms, AllOf(f, i), before, after, calls[i], m, f, later);
    assert calls[..i + 1] == calls[..i] + [calls[i]] && AllOf(f, i + 1) == AllOf(f, i) + [f];
  }

  // ----- sized answers

  /** Answer i is its raw content sized to what the history and the answers before it leave. */
  ghost predicate FittedAt(s: Session, calls: seq<ToolCall>, ms: seq<Message>, raws: seq<string>, history: nat, i: nat)
    requires i < |calls| && i < |ms| && i < |raws|
  {
    ms[i] == ToolMessageWithBudget(calls[i].name, calls[i].id, raws[i], s.window, history + MessagesTokens(ms[..i]),
                                   s.threshold)
  }

  ghost predicate Fitted(s: Session, calls: seq<ToolCall>, ms: seq<Message>, raws: seq<string>, history: nat) {
    |raws| <= |calls| && |raws| <= |ms| && forall i :: 0 <= i < |raws| ==> FittedAt(s, calls, ms, raws, history, i)
  }

  lemma FittedSnoc(s: Session, calls: seq<ToolCall>, ms: seq<Message>, raws: seq<string>, history: nat, m: Message,
                   raw: string)
    requires Fitted(s, calls, ms, raws, history) && |raws| == |ms| < |calls|
    requires var c := calls[|ms|]; m == ToolMessageWithBudget(c.name, c.id, raw, s.window, history + MessagesTokens(ms),
                                                              s.threshold)
    ensures Fitted(s, calls, ms + [m], raws + [raw], history)
  {
    hide ToolMessageWithBudget, MessagesTokens;
    forall i | 0 <= i < |raws| + 1 ensures FittedAt(s, calls, ms + [m], raws + [raw], history, i) {
      if i < |raws| {
        assert FittedAt(s, calls, ms, raws, history, i);
        assert (ms + [m])[..i] == ms[..i];
      } else {
        assert (ms + [m])[..i] == ms;
      }
    }
  }

  lemma FittedMore(s: Session, calls: seq<ToolCall>, ms: seq<Message>, raws: seq<string>, history: nat,
                   more: seq<Message>)
    requires Fitted(s, calls, ms, raws, history)
    ensures Fitted(s, calls, ms + more, raws, history)
  {
    hide ToolMessageWithBudget, MessagesTokens;
    forall i | 0 <= i < |raws| ensures FittedAt(s, calls, ms + more, raws, history, i) {
      assert FittedAt(s, calls, ms, raws, history, i);
      assert (ms + more)[..i] == ms[..i];
    }
  }

  /** Under a positive threshold, history and batch up to each sized answer stay below it, or that answer is
      fully omitted. */
  lemma FittedKeepsBudget(s: Session, calls: seq<ToolCall>, ms: seq<Message>, raws: seq<string>, history: nat, i: nat)
    requires Fitted(s, calls, ms, raws, history) && i < |raws|
    requires s.threshold > 0 && |raws[i]| < Pow10(77)
    ensures history + MessagesTokens(ms[..i + 1]) < s.threshold || FullyOmitted(ms[i].content)
  {
    hide ToolMessageWithBudget, FullyOmitted, MessageTokens;
    assert FittedAt(s, calls, ms, raws, history, i);
    BudgetKept(calls[i].name, calls[i].id, raws[i], s.window, history + MessagesTokens(ms[..i]), s.threshold);
    OneMessageTokens(ms[i]);
    assert ms[..i + 1][..i] == ms[..i];
  }

  /** The fully omitted answers, in order, with what they would have said. */
  function Overflows(calls: seq<ToolCall>, ms: seq<Message>, raws: seq<string>): seq<Overflow>
    requires |calls| == |ms| == |raws|
  {
    if calls == [] then []
    else
      var n := |calls| - 1;
      Overflows(calls[..n], ms[..n], raws[..n])
      + if FullyOmitted(ms[n].content) then [Overflow(calls[n].name, calls[n].id, raws[n])] else []
  }

  lemma OverflowsSnoc(calls: seq<ToolCall>, ms: seq<Message>, raws: seq<string>, c: ToolCall, m: Message, raw: string)
    requires |calls| == |ms| == |raws|
    ensures Overflows(calls + [c], ms + [m], raws + [raw])
         == Overflows(calls, ms, raws) + if FullyOmitted(m.content) then [Overflow(c.name, c.id, raw)] else []
  {
    hide FullyOmitted;
    var n := |calls|;
    assert (calls + [c])[..n] == calls && (ms + [m])[..n] == ms && (raws + [raw])[..n] == raws;
  }

  /** A fully omitted answer is on record. */
  lemma {:induction false} OmittedIsRecorded(calls: seq<ToolCall>, ms: seq<Message>, raws: seq<string>, i: nat)
    requires |calls| == |ms| == |raws| && i < |calls| && FullyOmitted(ms[i].content)
    ensures Overflow(calls[i].name, calls[i].id, raws[i]) in Overflows(calls, ms, raws)
  {
    hide FullyOmitted;
    var n := |calls| - 1;
    if i < n { OmittedIsRecorded(calls[..n], ms[..n], raws[..n], i); }
  }

  /** Only names of the batch are on record. */
  lemma {:induction false} OverflowNames(calls: seq<ToolCall>, ms: seq<Message>, raws: seq<string>, o: Overflow)
    requires |calls| == |ms| == |raws| && o in Overflows(calls, ms, raws)
    ensures exists i :: 0 <= i < |calls| && calls[i].name == o.name
  {
    hide FullyOmitted;
    var n := |calls| - 1;
    if o in Overflows(calls[..n], ms[..n], raws[..n]) {
      OverflowNames(calls[..n], ms[..n], raws[..n], o);
      var i :| 0 <= i < n && calls[..n][i].name == o.name;
      assert calls[i].name == o.name;
    } else {
      assert calls[n].name == o.name;
    }
  }

  // ----- refused calls

  function Repeat(text: string, n: nat): (r: seq<string>)
    ensures |r| == n && forall i :: 0 <= i < n ==> r[i] == text
  {
    seq(n, _ => text)
  }

  /** The first calls are refused: same fate, same text sized to the context. */
  ghost predicate Refused(s: Session, calls: seq<ToolCall>, ms: seq<Message>, f: Fate, text: string, history: nat,
                          before: seq<Event>, now: seq<Event>) {
    && |ms| <= |calls| && Answered(calls[..|ms|], ms, AllOf(f, |ms|), before, now)
    && Fitted(s, calls, ms, Repeat(text, |ms|), history)
  }

  lemma NoneRefused(s: Session, calls: seq<ToolCall>, f: Fate, text: string, history: nat, before: seq<Event>)
    ensures Refused(s, calls, [], f, text, history, before, before)
  {
    NoneAnswered(before);
    assert calls[..0] == [];
  }

  lemma OneMoreRefused(s: Session, calls: seq<ToolCall>, ms: seq<Message>, f: Fate, text: string, history: nat,
                       before: seq<Event>, now: seq<Event>, m: Message, later: seq<Event>)
    requires Refused(s, calls, ms, f, text, history, before, now) && |ms| < |calls| && !f.Ran?
    requires IsFit(s, calls[|ms|], text, history, ms, m)
    requires later == now + [ToolFinished(FinishStatus(f), calls[|ms|].id, calls[|ms|].name, m.content)]
    ensures Refused(s, calls, ms + [m], f, text, history, before, later)
  {
    hide Answered, Fitted, ToolMessageWithBudget, MessagesTokens, CallEvents, AnswerTo, FinishStatus;
    var i := |ms|;
    OnlyFinished(calls[i], m, f);
    NextFate(calls, ms, i, now, before, m, f, later);
    FittedSnoc(s, calls, ms, Repeat(text, i), history, m, text);
    assert Repeat(text, i) + [text] == Repeat(text, i + 1);
  }

  /** m answers the call with the text, sized to what comes before it. */
  ghost predicate IsFit(s: Session, call: ToolCall, text: string, history: nat, earlier: seq<Message>, m: Message) {
    && m == ToolMessageWithBudget(call.name, call.id, text, s.window, history + MessagesTokens(earlier), s.threshold)
    && AnswerTo(m, call)
  }

  /** When all are refused, all are answered. */
  lemma AllRefused(s: Session, calls: seq<ToolCall>, ms: seq<Message>, f: Fate, text: string, history: nat,
                   before: seq<Event>, now: seq<Event>)
    requires Refused(s, calls, ms, f, text, history, before, now) && |ms| == |calls|
    ensures Answered(calls, ms, AllOf(f, |calls|), before, now)
    ensures Fitted(s, calls, ms, Repeat(text, |calls|), history)
  {
    hide Answered, Fitted;
    assert calls[..|ms|] == calls;
  }

  /** disabledToolCalls */
  method DisabledToolCalls(s: Session, messages: seq<Message>, calls: seq<ToolCall>)
    returns (ok: bool, b: Batch)
    modifies s`events, s`canceled
    ensures ok ==> b.stop == GoOn && b.overflows == [] && |b.messages| == |calls|
    ensures ok ==> Refused(s, calls, b.messages, Disabled, "Tool execution disabled.", s.estimate(messages),
                           old(s.events), s.events)
  {
    hide Refused, IsFit, MessagesTokens;
    var h := s.estimate(messages);
    b := Batch([], GoOn, []);
    var ms: seq<Message> := [];
    NoneRefused(s, calls, Disabled, "Tool execution disabled.", h, s.events);
    for i := 0 to |calls|
      invariant |ms| == i && Refused(s, calls, ms, Disabled, "Tool execution disabled.", h, old(s.events), s.events)
    {
      ghost var was := s.events;
      var call := calls[i];
      var msg := ToolMessageForContext(s, call, "Tool execution disabled.", h, ms);
      ok := s.EmitIgnoringCanceled(ToolFinished(ToolDisabled, call.id, call.name, msg.content));
      OneMoreRefused(s, calls, ms, Disabled, "Tool execution disabled.", h, old(s.events), was, msg, s.events);
      ms := ms + [msg];
      if !ok {
        return;
      }
    }
    b := Batch(ms, GoOn, []);
    ok := true;
  }

  /** toolMessageForContext: sized to the compaction threshold. */
  method ToolMessageForContext(s: Session, call: ToolCall, content: string, history: nat, earlier: seq<Message>)
    returns (m: Message)
    ensures IsFit(s, call, content, history, earlier, m)
  {
    hide TruncateToolResult, MessagesTokens, MaxRunes;
    m := ToolMessageWithBudget(call.name, call.id, content, s.window, history + MessagesTokens(earlier), s.threshold);
  }

  /** A denied batch: every call gets the reason. */
  method DenyToolCalls(s: Session, h: nat, calls: seq<ToolCall>, content: string) returns (ok: bool, ms: seq<Message>)
    modifies s`events, s`canceled
    ensures ok ==> |ms| == |calls| && Refused(s, calls, ms, Denied, content, h, old(s.events), s.events)
  {
    hide Refused, IsFit, MessagesTokens;
    ms := [];
    NoneRefused(s, calls, Denied, content, h, s.events);
    for i := 0 to |calls|
      invariant |ms| == i && Refused(s, calls, ms, Denied, content, h, old(s.events), s.events)
    {
      ghost var was := s.events;
      var call := calls[i];
      var msg := ToolMessageForContext(s, call, content, h, ms);
      ok := s.Emit(ToolFinished(ToolDenied, call.id, call.name, msg.content));
      OneMoreRefused(s, calls, ms, Denied, content, h, old(s.events), was, msg, s.events);
      ms := ms + [msg];
      if !ok {
        return;
      }
    }
    ok := true;
  }

  // ----- running calls

  /** What a tool returned, as the model is told it. */
  ghost predicate Returned(r: ToolResult, f: Fate, raw: string) {
    match r
    case ToolOutput(content) => f == Ran(true) && raw == content
    case ToolError(message) => f == Ran(false) && raw == "Error: " + message
  }

  /** What a call came to that was neither refused nor skipped: what its tool returned, or that there is no such
      tool. */
  ghost predicate CameTo(s: Session, tools: set<string>, c: ToolCall, f: Fate, raw: string) {
    if c.name in tools then exists at: nat :: Returned(s.execute(at, c), f, raw)
    else f == Unknown && raw == "Error: unknown tool: " + c.name
  }

  /** One call of a batch: unknown tools and failures become answers too. */
  method RunCall(s: Session, tools: set<string>, call: ToolCall, history: nat, earlier: seq<Message>)
    returns (ok: bool, msg: Message, raw: string, ghost fate: Fate)
    modifies s`events, s`canceled
    ensures ok ==> IsFit(s, call, raw, history, earlier, msg)
    ensures ok ==> s.events == old(s.events) + CallEvents(call, msg, fate)
    ensures ok && call.name in tools ==> Returned(s.execute(|old(s.events)| + 1, call), fate, raw)
    ensures ok && call.name !in tools ==> fate == Unknown && raw == "Error: unknown tool: " + call.name
  {
    hide IsFit, MessagesTokens;
    if call.name !in tools {
      fate := Unknown;
      raw := "Error: unknown tool: " + call.name;
      msg := ToolMessageForContext(s, call, raw, history, earlier);
      ok := s.Emit(ToolFinished(ToolFailed, call.id, call.name, msg.content));
      return;
    }
    msg, raw, fate := ToolMessage(call.name, call.id, ""), "", Ran(false);
    ok := s.Emit(ToolStarted(call.id, call.name));
    if !ok {
      return;
    }
    var result := s.Execute(call);
    fate := Ran(result.ToolOutput?);
    raw := if result.ToolOutput? then result.content else "Error: " + result.message;
    msg := ToolMessageForContext(s, call, raw, history, earlier);
    var status := if result.ToolOutput? then ToolDone else ToolFailed;
    ok := s.EmitIgnoringCanceled(ToolFinished(status, call.id, call.name, msg.content));
    assert s.events == old(s.events) + CallEvents(call, msg, fate);
  }

  /** The first |ms| calls have been run, each answer sized, each omission recorded. */
  ghost predicate Running(s: Session, tools: set<string>, calls: seq<ToolCall>, ms: seq<Message>, fates: seq<Fate>,
                          raws: seq<string>, overflows: seq<Overflow>, history: nat, before: seq<Event>,
                          now: seq<Event>) {
    && |ms| <= |calls| && |raws| == |ms| == |fates|
    && Answered(calls[..|ms|], ms, fates, before, now)
    && Fitted(s, calls, ms, raws, history)
    && overflows == Overflows(calls[..|ms|], ms, raws)
    && forall i :: 0 <= i < |ms| ==> CameTo(s, tools, calls[i], fates[i], raws[i])
  }

  lemma NoneRun(s: Session, tools: set<string>, calls: seq<ToolCall>, history: nat, before: seq<Event>)
    ensures Running(s, tools, calls, [], [], [], [], history, before, before)
  {
    NoneAnswered(before);
    assert calls[..0] == [];
  }

  lemma OneMoreRun(s: Session, tools: set<string>, calls: seq<ToolCall>, ms: seq<Message>, fates: seq<Fate>,
                   raws: seq<string>, overflows: seq<Overflow>, history: nat, before: seq<Event>, now: seq<Event>,
                   m: Message, f: Fate, raw: string, later: seq<Event>)
    requires Running(s, tools, calls, ms, fates, raws, overflows, history, before, now) && |ms| < |calls|
    requires IsFit(s, calls[|ms|], raw, history, ms, m) && CameTo(s, tools, calls[|ms|], f, raw)
    requires later == now + CallEvents(calls[|ms|], m, f)
    ensures var c := calls[|ms|];
      Running(s, tools, calls, ms + [m], fates + [f], raws + [raw],
              overflows + (if FullyOmitted(m.content) then [Overflow(c.name, c.id, raw)] else []), history, before,
              later)
  {
    hide Answered, Fitted, ToolMessageWithBudget, MessagesTokens, CallEvents, AnswerTo, FullyOmitted, CameTo, Overflows;
    var i := |ms|;
    var c := calls[i];
    OneMoreAnswered(calls[..i], ms, fates, before, now, c, m, f, later);
    FittedSnoc(s, calls, ms, raws, history, m, raw);
    OverflowsSnoc(calls[..i], ms, raws, c, m, raw);
    assert calls[..i + 1] == calls[..i] + [c];
  }

  /** The outcome of a batch that ended without an error: n calls run, and the rest skipped when canceled. */
  ghost predicate BatchDone(s: Session, tools: set<string>, calls: seq<ToolCall>, b: Batch, fates: seq<Fate>,
                            raws: seq<string>, history: nat, before: seq<Event>, now: seq<Event>) {
    && Answered(calls, b.messages, fates, before, now)
    && |raws| <= |calls| == |b.messages| && Fitted(s, calls, b.messages, raws, history)
    && if b.stop == StopDenied then
         b.overflows == [] && |raws| == |calls| && fates == AllOf(Denied, |calls|)
       else
         && b.overflows == Overflows(calls[..|raws|], b.messages[..|raws|], raws)
         && (forall i :: 0 <= i < |raws| ==> CameTo(s, tools, calls[i], fates[i], raws[i]))
         && (forall i :: |raws| <= i < |calls| ==> fates[i] == Skipped)
         && (b.stop == GoOn ==> |raws| == |calls|)
  }

  lemma AllRun(s: Session, tools: set<string>, calls: seq<ToolCall>, b: Batch, fates: seq<Fate>,
               raws: seq<string>, history: nat, before: seq<Event>, now: seq<Event>)
    requires Running(s, tools, calls, b.messages, fates, raws, b.overflows, history, before, now)
    requires |b.messages| == |calls| && b.stop == GoOn
    ensures BatchDone(s, tools, calls, b, fates, raws, history, before, now)
  {
    hide Answered, Fitted, Overflows, CameTo;
    assert calls[..|calls|] == calls && b.messages[..|calls|] == b.messages;
  }

  lemma RestSkipped(s: Session, tools: set<string>, calls: seq<ToolCall>, ms: seq<Message>, fates: seq<Fate>,
                    raws: seq<string>, overflows: seq<Overflow>, history: nat, before: seq<Event>, now: seq<Event>,
                    skipped: seq<Message>, later: seq<Event>)
    requires Running(s, tools, calls, ms, fates, raws, overflows, history, before, now)
    requires Answered(calls[|ms|..], skipped, AllOf(Skipped, |calls| - |ms|), now, later)
    ensures BatchDone(s, tools, calls, Batch(ms + skipped, StopCanceled, overflows),
                      fates + AllOf(Skipped, |calls| - |ms|),
                      raws, history, before, later)
  {
    hide Answered, Fitted, Overflows, CameTo;
    var n := |ms|;
    var rest := AllOf(Skipped, |calls| - n);
    MoreAnswered(calls[..n], ms, fates, before, now, calls[n..], skipped, rest, later);
    assert calls[..n] + calls[n..] == calls;
    FittedMore(s, calls, ms, raws, history, skipped);
    assert (ms + skipped)[..n] == ms;
    AnsweredLength(calls, ms + skipped, fates + rest, before, later);
  }

  lemma AnsweredLength(calls: seq<ToolCall>, ms: seq<Message>, fates: seq<Fate>, before: seq<Event>, now: seq<Event>)
    requires Answered(calls, ms, fates, before, now)
    ensures |ms| == |calls| == |fates|
  {
    hide BatchEvents;
  }

  const CanceledMessage := "Tool execution skipped because the run was canceled."

  /** The loop over the calls, leaving at the first sign of cancellation. */
  method RunCalls(s: Session, tools: set<string>, calls: seq<ToolCall>, history: nat)
    returns (ok: bool, b: Batch, ghost fates: seq<Fate>, ghost raws: seq<string>)
    modifies s`events, s`canceled
    ensures ok ==> BatchDone(s, tools, calls, b, fates, raws, history, old(s.events), s.events) && b.stop != StopDenied
    ensures ok ==> Stops(tools, calls, b.stop, raws, old(s.canceled), s.canceled)
  {
    hide Running, BatchDone, Answered, CameTo, IsFit, CanceledMessage, CallEvents, FullyOmitted, TruncateToolResult;
    var ms: seq<Message>, overflows: seq<Overflow> := [], [];
    ok, b, fates, raws := true, Batch([], GoOn, []), [], [];
    NoneRun(s, tools, calls, history, s.events);
    var stopped := false;
    for i := 0 to |calls|
      invariant |ms| == i && ok && Running(s, tools, calls, ms, fates, raws, overflows, history, old(s.events),
                                           s.events)
      invariant old(s.canceled) ==> s.canceled && i == 0
      invariant |raws| == i
      invariant i > 0 && calls[i - 1].name in tools ==> !s.canceled
    {
      var call := calls[i];
      stopped := s.CheckCanceled();
      if stopped {
        ok, b, fates := SkipRest(s, tools, calls, ms, overflows, fates, raws, history, old(s.events));
        return;
      }
      ghost var was := s.events;
      var msg, raw;
      ghost var fate;
      ok, msg, raw, fate := RunCall(s, tools, call, history, ms);
      if !ok {
        return;
      }
      CallCameTo(s, tools, call, fate, raw, |was| + 1);
      OneMoreRun(s, tools, calls, ms, fates, raws, overflows, history, old(s.events), was, msg, fate, raw, s.events);
      ms, fates, raws := ms + [msg], fates + [fate], raws + [raw];
      overflows := overflows + if FullyOmitted(msg.content) then [Overflow(call.name, call.id, raw)] else [];
      if call.name in tools {
        stopped := s.CheckCanceled();
        if stopped {
          ok, b, fates := SkipRest(s, tools, calls, ms, overflows, fates, raws, history, old(s.events));
          return;
        }
      }
    }
    b := Batch(ms, GoOn, overflows);
    AllRun(s, tools, calls, b, fates, raws, history, old(s.events), s.events);
  }

  /** A run canceled before runs nothing; a batch is cut short only by cancellation, and is not carried on after it
      once its last tool has run. */
  ghost predicate Stops(tools: set<string>, calls: seq<ToolCall>, stop: Stop, raws: seq<string>, was: bool,
                        canceled: bool) {
    && (was ==> raws == [])
    && (stop == StopCanceled ==> canceled)
    && (stop == GoOn && calls != [] && calls[|calls| - 1].name in tools ==> !canceled)
  }

  lemma CallCameTo(s: Session, tools: set<string>, c: ToolCall, f: Fate, raw: string, at: nat)
    requires if c.name in tools then Returned(s.execute(at, c), f, raw)
      else f == Unknown && raw == "Error: unknown tool: " + c.name
    ensures CameTo(s, tools, c, f, raw)
  {
    hide Returned;
  }

  /** Leaving a batch early: the calls not yet run are skipped. */
  method SkipRest(s: Session, tools: set<string>, calls: seq<ToolCall>, ms: seq<Message>, overflows: seq<Overflow>,
                  ghost fates: seq<Fate>, ghost raws: seq<string>, ghost history: nat, ghost before: seq<Event>)
    returns (ok: bool, b: Batch, ghost all: seq<Fate>)
    requires |ms| <= |calls| && Running(s, tools, calls, ms, fates, raws, overflows, history, before, s.events)
    modifies s`events, s`canceled
    ensures ok ==> BatchDone(s, tools, calls, b, all, raws, history, before, s.events) && b.stop == StopCanceled
    ensures old(s.canceled) ==> s.canceled
  {
    hide Running, BatchDone, Answered, CanceledMessage, TruncateToolResult;
    ghost var now := s.events;
    var skipped;
    ok, skipped := SkipToolCalls(s, calls[|ms|..], CanceledMessage);
    b, all := Batch(ms + skipped, StopCanceled, overflows), fates + AllOf(Skipped, |calls| - |ms|);
    if ok { RestSkipped(s, tools, calls, ms, fates, raws, overflows, history, before, now, skipped, s.events); }
  }

  /** A known tool of the batch needs approval. */
  ghost predicate Asks(s: Session, tools: set<string>, calls: seq<ToolCall>, at: nat) {
    exists i :: 0 <= i < |calls| && AsksFor(s, tools, calls[i], at)
  }

  predicate AsksFor(s: Session, tools: set<string>, c: ToolCall, at: nat) {
    c.name in tools && s.needsApproval(at, c)
  }

  method ApprovalNeeded(s: Session, tools: set<string>, calls: seq<ToolCall>) returns (needed: bool)
    ensures needed <==> Asks(s, tools, calls, |s.events|)
  {
    needed := false;
    for i := 0 to |calls|
      invariant needed <==> exists k :: 0 <= k < i && AsksFor(s, tools, calls[k], |s.events|)
    {
      if AsksFor(s, tools, calls[i], |s.events|) {
        needed := true;
      }
    }
  }

  /** A batch whose tools need approval is run only if the user allows it: a refusal answers every call with its
      reason, and without an answer nothing is run. */
  ghost predicate AsApproved(s: Session, asks: bool, approval: Approval, calls: seq<ToolCall>, stop: Stop,
                             raws: seq<string>) {
    if !asks then stop != StopDenied
    else match approval
      case Allowed => stop != StopDenied
      case NotAllowed(reason) =>
        stop == StopDenied && |raws| == |calls| && forall i :: 0 <= i < |raws| ==>
          raws[i] == if reason != "" then reason else "Tool execution denied."
      case ApprovalFailed => stop == StopCanceled && raws == []
  }

  /** executeToolCalls: whatever way a batch ends without an error, every call is answered. */
  method ExecuteToolCalls(s: Session, messages: seq<Message>, calls: seq<ToolCall>)
    returns (ok: bool, b: Batch, ghost fates: seq<Fate>, ghost raws: seq<string>)
    requires s.tools.Some?
    modifies s`events, s`canceled
    ensures ok ==> BatchDone(s, s.tools.value, calls, b, fates, raws, s.estimate(messages), old(s.events), s.events)
    ensures ok ==> AsApproved(s, Asks(s, s.tools.value, calls, |old(s.events)|), s.approval(|old(s.events)|), calls,
                              b.stop, raws)
    ensures ok && b.stop != StopDenied ==> Stops(s.tools.value, calls, b.stop, raws, old(s.canceled), s.canceled)
  {
    hide BatchDone, Refused, Running, CanceledMessage, Asks;
    var h := s.estimate(messages);
    ok, b, fates, raws := false, Batch([], GoOn, []), [], [];
    ghost var before := s.events;
    NoneRun(s, s.tools.value, calls, h, before);
    var needed := ApprovalNeeded(s, s.tools.value, calls);
    if needed {
      var approval := s.Authorize();
      match approval
      case ApprovalFailed =>
        var canceled := s.CheckCanceled();
        if canceled {
          ok, b, fates := SkipRest(s, s.tools.value, calls, [], [], [], [], h, before);
        }
        return;
      case NotAllowed(reason) =>
        var content := reason;
        if content == "" {
          content := "Tool execution denied.";
        }
        var ms;
        ok, ms := DenyToolCalls(s, h, calls, content);
        b, fates, raws := Batch(ms, StopDenied, []), AllOf(Denied, |calls|), Repeat(content, |calls|);
        if ok { AllDenied(s, s.tools.value, calls, ms, content, h, before, s.events); }
        return;
      case Allowed =>
    }
    ok, b, fates, raws := RunCalls(s, s.tools.value, calls, h);
  }

  lemma AllDenied(s: Session, tools: set<string>, calls: seq<ToolCall>, ms: seq<Message>, content: string, history: nat,
                  before: seq<Event>, now: seq<Event>)
    requires Refused(s, calls, ms, Denied, content, history, before, now) && |ms| == |calls|
    ensures BatchDone(s, tools, calls, Batch(ms, StopDenied, []), AllOf(Denied, |calls|), Repeat(content, |calls|),
                      history, before, now)
  {
    hide Answered, Fitted, Refused;
    AllRefused(s, calls, ms, Denied, content, history, before, now);
  }

  // ----- what a finished batch guarantees

  /** After each call of a finished batch that was not refused or skipped: under a positive threshold, the history
      and the batch so far are below it, or the answer is fully omitted and recorded with its full text. */
  lemma BatchKeepsBudget(s: Session, tools: set<string>, calls: seq<ToolCall>, b: Batch, fates: seq<Fate>,
                         raws: seq<string>, history: nat, before: seq<Event>, now: seq<Event>, i: nat)
    requires BatchDone(s, tools, calls, b, fates, raws, history, before, now)
    requires i < |raws| && b.stop != StopDenied && s.threshold > 0 && |raws[i]| < Pow10(77)
    ensures history + MessagesTokens(b.messages[..i + 1]) < s.threshold
         || (FullyOmitted(b.messages[i].content) && Overflow(calls[i].name, calls[i].id, raws[i]) in b.overflows)
  {
    hide Answered, Fitted, FullyOmitted, MessagesTokens, Overflows, CameTo;
    FittedKeepsBudget(s, calls, b.messages, raws, history, i);
    if FullyOmitted(b.messages[i].content) {
      var n := |raws|;
      assert b.messages[..n][i] == b.messages[i] && calls[..n][i] == calls[i];
      OmittedIsRecorded(calls[..n], b.messages[..n], raws, i);
    }
  }

  /** The finished event of a call, with the status its fate stands for. */
  ghost predicate Reports(e: Event, c: ToolCall, m: Message, f: Fate) {
    && e.ToolFinished? && e.id == c.id && e.name == c.name && e.content == m.content
    && match f
       case Ran(ok) => e.status == (if ok then ToolDone else ToolFailed)
       case Unknown => e.status == ToolFailed
       case Denied => e.status == ToolDenied
       case Disabled => e.status == ToolDisabled
       case Skipped => e.status == ToolSkipped
  }

  /** The finished events, in order. */
  function Finished(events: seq<Event>): seq<Event> {
    if events == [] then []
    else
      var last := events[|events| - 1];
      Finished(events[..|events| - 1]) + if last.ToolFinished? then [last] else []
  }

  /** One finished event per call, in the order of the calls, each telling what became of its call. */
  ghost predicate AllReported(finished: seq<Event>, calls: seq<ToolCall>, ms: seq<Message>, fates: seq<Fate>)
    requires |calls| == |ms| == |fates|
  {
    |finished| == |calls| && forall i :: 0 <= i < |calls| ==> Reports(finished[i], calls[i], ms[i], fates[i])
  }

  lemma ReportedSnoc(finished: seq<Event>, calls: seq<ToolCall>, ms: seq<Message>, fates: seq<Fate>, e: Event)
    requires |calls| == |ms| == |fates| > 0
    requires var n := |calls| - 1;
      AllReported(finished, calls[..n], ms[..n], fates[..n]) && Reports(e, calls[n], ms[n], fates[n])
    ensures AllReported(finished + [e], calls, ms, fates)
  {
    hide Reports;
  }

  /** Each call has exactly one finished event, in the order of the calls, and it tells what became of the call. */
  lemma {:induction false} EachCallFinishes(calls: seq<ToolCall>, ms: seq<Message>, fates: seq<Fate>)
    requires |calls| == |ms| == |fates|
    ensures AllReported(Finished(BatchEvents(calls, ms, fates)), calls, ms, fates)
  {
    hide Reports, CallEvents, Finished;
    if calls == [] {
      NoneFinished();
    } else {
      var n := |calls| - 1;
      hide AllReported;
      EachCallFinishes(calls[..n], ms[..n], fates[..n]);
      FinishedConcat(BatchEvents(calls[..n], ms[..n], fates[..n]), CallEvents(calls[n], ms[n], fates[n]));
      OneFinished(calls[n], ms[n], fates[n]);
      var own := CallEvents(calls[n], ms[n], fates[n]);
      ReportedSnoc(Finished(BatchEvents(calls[..n], ms[..n], fates[..n])), calls, ms, fates, own[|own| - 1]);
    }
  }

  lemma NoneFinished()
    ensures Finished([]) == []
  {}

  lemma {:induction false} FinishedConcat(a: seq<Event>, b: seq<Event>)
    ensures Finished(a + b) == Finished(a) + Finished(b)
  {
    if b == [] {
      assert a + b == a;
    } else {
      FinishedConcat(a, b[..|b| - 1]);
      assert (a + b)[..|a + b| - 1] == a + b[..|b| - 1];
    }
  }

  lemma OneFinished(c: ToolCall, m: Message, f: Fate)
    ensures var e := CallEvents(c, m, f);
      e != [] && Finished(e) == [e[|e| - 1]] && Reports(e[|e| - 1], c, m, f)
  {
    var e := CallEvents(c, m, f);
    assert e[..|e| - 1] == if f.Ran? then [ToolStarted(c.id, c.name)] else [];
    if f.Ran? { assert e[..1][..0] == [] && Finished(e[..1]) == []; }
  }

  /** Event p is a call's finished event, and the one before it is its own started event exactly when its tool was
      run. */
  ghost predicate FinishesAt(events: seq<Event>, p: nat, c: ToolCall, m: Message, f: Fate) {
    && p < |events| && Reports(events[p], c, m, f)
    && (f.Ran? <==> p > 0 && events[p - 1].ToolStarted?)
    && (f.Ran? ==> events[p - 1] == ToolStarted(c.id, c.name))
  }

  lemma StartedWhenRun(calls: seq<ToolCall>, ms: seq<Message>, fates: seq<Fate>, i: nat)
    requires |calls| == |ms| == |fates| && i < |calls|
    ensures exists p: nat :: FinishesAt(BatchEvents(calls, ms, fates), p, calls[i], ms[i], fates[i])
  {
    hide BatchEvents, Reports;
    var before, own := BatchEvents(calls[..i], ms[..i], fates[..i]), CallEvents(calls[i], ms[i], fates[i]);
    var after := BatchEvents(calls[i + 1..], ms[i + 1..], fates[i + 1..]);
    BatchEventsSnoc(calls[..i], ms[..i], fates[..i], calls[i], ms[i], fates[i]);
    BatchEventsConcat(calls[..i] + [calls[i]], ms[..i] + [ms[i]], fates[..i] + [fates[i]],
                      calls[i + 1..], ms[i + 1..], fates[i + 1..]);
    assert calls[..i] + [calls[i]] + calls[i + 1..] == calls;
    assert ms[..i] + [ms[i]] + ms[i + 1..] == ms;
    assert fates[..i] + [fates[i]] + fates[i + 1..] == fates;
    OneFinished(calls[i], ms[i], fates[i]);
    EndsFinished(calls[..i], ms[..i], fates[..i]);
    var p := |before| + |own| - 1;
    assert (before + own + after)[p] == own[|own| - 1];
    if p > 0 {
      assert (before + own + after)[p - 1] == if fates[i].Ran? then own[0] else before[|before| - 1];
    }
    assert FinishesAt(before + own + after, p, calls[i], ms[i], fates[i]);
  }

  lemma EndsFinished(calls: seq<ToolCall>, ms: seq<Message>, fates: seq<Fate>)
    requires |calls| == |ms| == |fates|
    ensures var e := BatchEvents(calls, ms, fates);
      e != [] ==> e[|e| - 1].ToolFinished?
  {}
}
