/** agent/session.go: the run loop over its phases. */
module AgentRun {
  import opened Text
  import opened AgentMessages
  import opened ToolBudget
  import opened Compaction
  import opened CompactionSplit
  import opened CompactionPairing
  import opened RunHistory
  import opened Compactor
  import opened SessionState
  import opened ToolBatch

  datatype Phase = ModelPhase | ToolsPhase | CompactPhase | DonePhase

  /** runState */
  class RunState {
    var phase: Phase
    var messages: seq<Message>
    var assistant: Message
    var pending: seq<ToolCall>
    var canceled: bool
    var toolBatch: Option<Batch>
    var modelErrors: nat
    var toolRounds: nat
    const maxToolRounds: int
    var skipNotified: bool
    var status: Option<RunStatus>
    var failed: bool
    var ignoreCanceled: bool
    /** What the calls of the batch came to that were not refused or skipped. */
    ghost var raws: seq<string>

    constructor (messages: seq<Message>, maxToolRounds: int)
      ensures phase == ModelPhase && this.messages == messages && this.maxToolRounds == maxToolRounds
      ensures modelErrors == 0 && toolRounds == 0 && toolBatch == None
    {
      phase, this.messages, this.maxToolRounds := ModelPhase, messages, maxToolRounds;
      assistant, pending, canceled, toolBatch := NoMessage, [], false, None;
      modelErrors, toolRounds, skipNotified := 0, 0, false;
      status, failed, ignoreCanceled, raws := None, false, false, [];
    }

    method FinishWith(status: RunStatus, ignoreCanceled: bool)
      modifies this`phase, this`status, this`ignoreCanceled
      ensures phase == DonePhase && this.status == Some(status)
    {
      phase, this.status, this.ignoreCanceled := DonePhase, Some(status), ignoreCanceled;
    }

    method FinishError()
      modifies this`phase, this`failed
      ensures phase == DonePhase && failed
    {
      phase, failed := DonePhase, true;
    }
  }

  const NoMessage := Message(Assistant, "", "", "", "", [])

  /** resolvedMaxToolRounds: negative for no limit. */
  function ResolvedMaxToolRounds(cloud: bool, value: int): int {
    if value != 0 then value else if cloud then -1 else 100
  }

  // ----- what a run keeps

  /** A message of the model's that calls tools, none of them the summary. */
  predicate Calling(m: Message, calls: seq<ToolCall>) {
    IsCallMessage(m) && !IsSummaryCall(m) && m.toolCalls == calls
  }

  /** A good history and then a message whose calls are still open. */
  predicate OpenHistory(ms: seq<Message>, assistant: Message, calls: seq<ToolCall>) {
    ms != [] && Good(ms[..|ms| - 1]) && ms[|ms| - 1] == assistant && Calling(assistant, calls)
  }

  /** The batch answers the assistant's calls, and records what those answers would have said that were fully
      omitted. */
  ghost predicate BatchAnswers(assistant: Message, b: Batch, raws: seq<string>) {
    && Calling(assistant, assistant.toolCalls) && Recorded(assistant.toolCalls, b, raws)
  }

  ghost predicate Recorded(calls: seq<ToolCall>, b: Batch, raws: seq<string>) {
    && AnswersTo(b.messages, calls) && |raws| <= |calls|
    && b.overflows == Overflows(calls[..|raws|], b.messages[..|raws|], raws)
  }

  /** Runs with a limit and with tools on. */
  predicate Limited(s: Session, st: RunState) { st.maxToolRounds >= 0 && !s.disableTools }

  /** What holds whenever the loop looks at the phase. */
  ghost predicate RunInv(s: Session, st: RunState)
    reads s, st
  {
    && st.modelErrors <= 2
    && (Limited(s, st) ==> Counted(s, st))
    && match st.phase
       case ModelPhase => Good(st.messages) && st.toolBatch.None?
       case ToolsPhase => s.tools.Some? && !s.disableTools && OpenHistory(st.messages, st.assistant, st.pending)
       case CompactPhase => Good(st.messages) && (st.toolBatch.Some? ==>
                                                  BatchAnswers(st.assistant, st.toolBatch.value, st.raws))
       case DonePhase => Good(st.messages) || LeftOpen(s, st)
  }

  /** With no registry, a run may end on calls nobody answers. */
  ghost predicate LeftOpen(s: Session, st: RunState)
    reads s, st
  {
    s.tools.None? && !s.disableTools && OpenHistory(st.messages, st.assistant, st.pending)
  }

  /** Rounds, requests and batches so far, under a limit. */
  ghost predicate Counted(s: Session, st: RunState)
    reads s, st
  {
    && st.toolRounds <= st.maxToolRounds
    && match st.phase
       case ModelPhase => s.batches <= st.toolRounds && s.requests <= 3 * st.toolRounds + st.modelErrors
       case ToolsPhase => s.batches <= st.toolRounds < st.maxToolRounds && s.requests <= 3 * st.toolRounds + 3
       case CompactPhase =>
         && s.requests <= 3 * st.toolRounds + 3
         && if st.toolBatch.Some? then s.batches <= st.toolRounds + 1 <= st.maxToolRounds
           else s.batches <= st.toolRounds
       case DonePhase => s.batches <= st.maxToolRounds && s.requests <= 3 * (st.maxToolRounds + 1)
  }

  /** The client never calls a tool named summary. */
  ghost predicate CallsNoSummary(client: (nat, seq<Message>) -> Reply) {
    forall n: nat, ms: seq<Message> :: ReplyCallsNoSummary(client(n, ms))
  }

  predicate ReplyCallsNoSummary(r: Reply) {
    forall i :: 0 <= i < |r.chunks| ==> !NamesSummary(r.chunks[i].calls)
  }

  // ----- lemmas about a step's history

  lemma NamesSummaryConcat(a: seq<ToolCall>, b: seq<ToolCall>)
    requires !NamesSummary(a) && !NamesSummary(b)
    ensures !NamesSummary(a + b)
  {}

  /** An answered group after a good history. */
  lemma GroupAppended(base: seq<Message>, assistant: Message, calls: seq<ToolCall>, ms: seq<Message>)
    requires Good(base) && Calling(assistant, calls) && AnswersTo(ms, calls)
    ensures Good(base + [assistant] + ms)
    ensures Answers(ms, calls) && NoneNamed(ms)
  {
    hide Good;
    forall i | 0 <= i < |ms| ensures IsAnswer(ms[i], calls[i]) && ms[i].toolName != SummaryName {
      assert AnswerTo(ms[i], calls[i]);
      assert calls[i].name != SummaryName;
    }
    GoodGroup(assistant, ms);
    GoodConcat(base, [assistant] + ms);
    assert base + [assistant] + ms == base + ([assistant] + ms);
  }

  lemma PlainAppended(base: seq<Message>, m: Message)
    requires Good(base) && IsPlain(m)
    ensures Good(base + [m])
  {
    hide Good;
    GoodPlain(m);
    GoodConcat(base, [m]);
  }

  lemma OpenAppended(base: seq<Message>, assistant: Message, calls: seq<ToolCall>)
    requires Good(base) && Calling(assistant, calls)
    ensures OpenHistory(base + [assistant], assistant, calls)
  {
    hide Good;
    assert (base + [assistant])[..|base|] == base;
  }

  /** Open calls closed by their answers. */
  lemma OpenAnswered(ms: seq<Message>, assistant: Message, calls: seq<ToolCall>, answers: seq<Message>)
    requires OpenHistory(ms, assistant, calls) && AnswersTo(answers, calls)
    ensures Good(ms + answers) && Answers(answers, calls) && NoneNamed(answers)
  {
    hide Good, AnswersTo;
    var base := ms[..|ms| - 1];
    GroupAppended(base, assistant, calls, answers);
    assert base + [assistant] == ms;
  }

  /** A history left open is not well paired. */
  lemma OpenNotPaired(ms: seq<Message>, assistant: Message, calls: seq<ToolCall>)
    requires OpenHistory(ms, assistant, calls)
    ensures !WellPaired(ms)
  {
    UnansweredNotPaired(ms[..|ms| - 1], assistant);
    assert ms[..|ms| - 1] + [assistant] == ms;
  }

  // ----- the model step

  datatype ChatOutcome = Finished | CanceledChat | Failed(status: nat, message: string)

  /** The message that streamed chunks add up to. */
  function Assembled(chunks: seq<Chunk>): Message {
    if chunks == [] then NoMessage
    else
      var m, c := Assembled(chunks[..|chunks| - 1]), chunks[|chunks| - 1];
      m.(content := m.content + c.content, thinking := m.thinking + c.thinking, toolCalls := m.toolCalls + c.calls)
  }

  /** The deltas a chunk is announced by. */
  function Deltas(c: Chunk): seq<Event> {
    (if c.thinking != "" then [ThinkingDelta(c.thinking)] else [])
    + (if c.content != "" then [MessageDelta(c.content)] else [])
    + (if c.calls != [] then [ToolCallsDetected(c.calls)] else [])
  }

  function AllDeltas(chunks: seq<Chunk>): seq<Event> {
    if chunks == [] then [] else AllDeltas(chunks[..|chunks| - 1]) + Deltas(chunks[|chunks| - 1])
  }

  /** The message that events tell of, piece by piece. */
  function Heard(events: seq<Event>): Message {
    if events == [] then NoMessage else AlsoHeard(Heard(events[..|events| - 1]), events[|events| - 1])
  }

  function AlsoHeard(m: Message, e: Event): Message {
    match e
    case MessageDelta(text) => m.(content := m.content + text)
    case ThinkingDelta(text) => m.(thinking := m.thinking + text)
    case ToolCallsDetected(calls) => m.(toolCalls := m.toolCalls + calls)
    case _ => m
  }

  lemma HeardSnoc(events: seq<Event>, e: Event)
    ensures Heard(events + [e]) == AlsoHeard(Heard(events), e)
  {
    assert (events + [e])[..|events|] == events;
  }

  lemma HeardIf(events: seq<Event>, announced: bool, e: Event)
    ensures Heard(events + if announced then [e] else [])
         == if announced then AlsoHeard(Heard(events), e) else Heard(events)
  {
    hide AlsoHeard;
    if announced {
      HeardSnoc(events, e);
    } else {
      assert events + [] == events;
    }
  }

  lemma HeardChunk(events: seq<Event>, c: Chunk)
    ensures var m := Heard(events);
      Heard(events + Deltas(c))
        == m.(content := m.content + c.content, thinking := m.thinking + c.thinking, toolCalls := m.toolCalls + c.calls)
  {
    hide Heard;
    var a := if c.thinking != "" then [ThinkingDelta(c.thinking)] else [];
    var b := if c.content != "" then [MessageDelta(c.content)] else [];
    var d := if c.calls != [] then [ToolCallsDetected(c.calls)] else [];
    HeardIf(events, c.thinking != "", ThinkingDelta(c.thinking));
    HeardIf(events + a, c.content != "", MessageDelta(c.content));
    HeardIf(events + a + b, c.calls != [], ToolCallsDetected(c.calls));
    assert events + (a + b + d) == events + a + b + d;
  }

  lemma NextChunk(chunks: seq<Chunk>, i: nat)
    requires i < |chunks|
    ensures AllDeltas(chunks[..i + 1]) == AllDeltas(chunks[..i]) + Deltas(chunks[i])
    ensures var m, c := Assembled(chunks[..i]), chunks[i];
      Assembled(chunks[..i + 1])
        == m.(content := m.content + c.content, thinking := m.thinking + c.thinking, toolCalls := m.toolCalls + c.calls)
  {
    hide Deltas;
    assert chunks[..i + 1][..i] == chunks[..i];
  }

  /** What the listeners were told of a reply is the message that goes into the history. */
  lemma {:induction false} ReplyAsHeard(chunks: seq<Chunk>)
    ensures Heard(AllDeltas(chunks)) == Assembled(chunks)
  {
    hide Deltas, Heard, Assembled, AllDeltas;
    if chunks == [] {
      NothingHeard();
    } else {
      var n := |chunks| - 1;
      ReplyAsHeard(chunks[..n]);
      NextChunk(chunks, n);
      assert chunks[..n + 1] == chunks;
      HeardChunk(AllDeltas(chunks[..n]), chunks[n]);
    }
  }

  lemma NothingHeard()
    ensures Heard(AllDeltas([])) == Assembled([])
  {}

  /** A reply in one chunk is that chunk. */
  lemma OneChunkAssembled(c: Chunk)
    ensures Assembled([c]) == Message(Assistant, c.content, c.thinking, "", "", c.calls)
  {
    NextChunk([c], 0);
    assert [c][..1] == [c] && [c][..0] == [];
  }

  /** A message of the assistant's, of whatever text and calls, none of them the summary. */
  predicate FromModel(m: Message) {
    m == Message(Assistant, m.content, m.thinking, "", "", m.toolCalls) && !NamesSummary(m.toolCalls)
  }

  /** One chunk taken and announced piece by piece, up to a failing sink. */
  method TakeChunk(s: Session, c: Chunk, before: Message) returns (ok: bool, m: Message)
    requires FromModel(before) && !NamesSummary(c.calls)
    modifies s`events, s`canceled
    ensures FromModel(m)
    ensures ok ==> s.events == old(s.events) + Deltas(c)
    ensures ok ==> m == before.(content := before.content + c.content, thinking := before.thinking + c.thinking,
                                toolCalls := before.toolCalls + c.calls)
  {
    ok, m := true, before;
    if c.thinking != "" {
      m := m.(thinking := m.thinking + c.thinking);
      ok := s.Emit(ThinkingDelta(c.thinking));
      if !ok { return; }
    }
    if c.content != "" {
      m := m.(content := m.content + c.content);
      ok := s.Emit(MessageDelta(c.content));
      if !ok { return; }
    }
    if c.calls != [] {
      NamesSummaryConcat(m.toolCalls, c.calls);
      m := m.(toolCalls := m.toolCalls + c.calls);
      ok := s.Emit(ToolCallsDetected(c.calls));
    }
  }

  /** chatRound: the reply's chunks are added up; a failing sink ends the request. */
  method ChatRound(s: Session, messages: seq<Message>) returns (assistant: Message, outcome: ChatOutcome)
    requires CallsNoSummary(s.client)
    modifies s`events, s`canceled, s`requests
    ensures s.requests == old(s.requests) + 1
    ensures FromModel(assistant)
    ensures var reply := s.client(old(s.requests), messages);
      outcome == Finished ==>
        reply.end.ChatDone? && assistant == Assembled(reply.chunks)
          && s.events == old(s.events) + AllDeltas(reply.chunks)
  {
    hide CallsNoSummary, NamesSummary, Deltas, FromModel, Assembled, AllDeltas;
    var reply := s.client(s.requests, messages);
    ReplyIsSane(s.client, s.requests, messages);
    s.requests := s.requests + 1;
    assistant := NoMessage;
    NothingFromModel();
    assert reply.chunks[..0] == [];
    for i := 0 to |reply.chunks|
      invariant s.requests == old(s.requests) + 1
      invariant assistant == Assembled(reply.chunks[..i]) && s.events == old(s.events) + AllDeltas(reply.chunks[..i])
      invariant FromModel(assistant)
    {
      var chunk := reply.chunks[i];
      NextChunk(reply.chunks, i);
      var ok;
      ok, assistant := TakeChunk(s, chunk, assistant);
      if !ok {
        var canceled: bool := *;
        outcome := if canceled then CanceledChat else Failed(0, "");
        return;
      }
    }
    assert reply.chunks[..|reply.chunks|] == reply.chunks;
    outcome := match reply.end
      case ChatDone => Finished
      case ChatCanceled => CanceledChat
      case ChatFailed(status, message) => Failed(status, message);
  }

  lemma ReplyIsSane(client: (nat, seq<Message>) -> Reply, n: nat, ms: seq<Message>)
    requires CallsNoSummary(client)
    ensures forall i :: 0 <= i < |client(n, ms).chunks| ==> !NamesSummary(client(n, ms).chunks[i].calls)
  {
    hide NamesSummary;
    assert ReplyCallsNoSummary(client(n, ms));
  }

  lemma NothingFromModel()
    ensures FromModel(NoMessage) && Assembled([]) == NoMessage && AllDeltas([]) == []
  {}

  const RetryPrefix := "Your previous response caused an error: "

  function LimitMessage(maxToolRounds: nat): string {
    "Tool execution skipped because the max tool-round limit of " + Decimal(maxToolRounds)
    + " was reached. Send another message to continue."
  }

  function Rank(p: Phase): nat {
    match p case ModelPhase => 3 case ToolsPhase => 2 case CompactPhase => 1 case DonePhase => 0
  }

  /** The counts while a model step is under way: its request is made. */
  ghost predicate CountedInStep(s: Session, st: RunState)
    reads s, st
  {
    Limited(s, st) ==>
      st.toolRounds <= st.maxToolRounds && s.batches <= st.toolRounds && s.requests <= 3 * st.toolRounds + 3
  }

  /** Where open calls lead: a canceled, a disabled, an unequipped, a limited and an ordinary run. */
  ghost predicate Closed(s: Session, phase: Phase, status: Option<RunStatus>, failed: bool, batch: Option<Batch>,
                         canceled: bool, limit: bool) {
    if canceled then phase == DonePhase && status == Some(RunCanceled)
    else if s.disableTools then phase == CompactPhase && batch.Some?
    else if s.tools.None? then phase == DonePhase && status == Some(RunDone)
    else if limit then phase == DonePhase && failed
    else phase == ToolsPhase
  }

  /** What is added to the history, and emitted, when open calls are closed without running them. */
  ghost predicate ClosingAnswers(s: Session, canceled: bool, maxToolRounds: int, rounds: nat, calls: seq<ToolCall>,
                                 was: seq<Message>, added: seq<Message>, batch: Option<Batch>, before: seq<Event>,
                                 now: seq<Event>) {
    if canceled then
      Answered(calls, added, AllOf(Skipped, |calls|), before, now) && AllSay(added, CanceledMessage)
    else if s.disableTools then
      && batch.Some? && batch.value.messages == added && batch.value.stop == GoOn && |added| == |calls|
      && Answered(calls, added, AllOf(Disabled, |calls|), before, now)
      && Fitted(s, calls, added, Repeat("Tool execution disabled.", |calls|), s.estimate(was))
    else if s.tools.None? then added == [] && now == before
    else if 0 <= maxToolRounds <= rounds then
      && now != [] && Answered(calls, added, AllOf(Skipped, |calls|), before, now[..|now| - 1])
      && now[|now| - 1] == RunError && AllSay(added, LimitMessage(maxToolRounds))
    else added == [] && now == before
  }

  ghost predicate AllSay(ms: seq<Message>, text: string) {
    forall i :: 0 <= i < |ms| ==> ms[i].content == TruncateToolResult(text, MaxToolResultRunes)
  }

  /** Open calls answered without being run. */
  method SkipOpen(s: Session, st: RunState, content: string) returns (ok: bool)
    requires OpenHistory(st.messages, st.assistant, st.pending)
    modifies s`events, s`canceled, st`messages
    ensures ok ==> Good(st.messages) && old(st.messages) <= st.messages
    ensures ok ==> Answered(st.pending, st.messages[|old(st.messages)|..], AllOf(Skipped, |st.pending|), old(s.events),
                            s.events)
    ensures ok ==> AllSay(st.messages[|old(st.messages)|..], content)
  {
    hide Good, Calling, AnswersTo, BatchEvents, OpenHistory, Answers, NoneNamed, TruncateToolResult;
    var toolMessages;
    ok, toolMessages := SkipToolCalls(s, st.pending, content);
    if ok {
      OpenAnswered(st.messages, st.assistant, st.pending, toolMessages);
      st.messages := st.messages + toolMessages;
      assert st.messages[|old(st.messages)|..] == toolMessages;
    }
  }

  /** Open calls answered as disabled. */
  method DisableOpen(s: Session, st: RunState) returns (ok: bool)
    requires OpenHistory(st.messages, st.assistant, st.pending)
    modifies s`events, s`canceled, st`messages, st`toolBatch, st`raws
    ensures ok ==> Good(st.messages) && old(st.messages) <= st.messages && st.toolBatch.Some?
    ensures ok ==> BatchAnswers(st.assistant, st.toolBatch.value, st.raws) && st.toolBatch.value.stop == GoOn
    ensures ok ==>
      st.toolBatch.value.messages == st.messages[|old(st.messages)|..]
      && |st.toolBatch.value.messages| == |st.pending|
    ensures ok ==> Answered(st.pending, st.toolBatch.value.messages, AllOf(Disabled, |st.pending|), old(s.events),
                            s.events)
    ensures ok ==> Fitted(s, st.pending, st.toolBatch.value.messages,
                          Repeat("Tool execution disabled.", |st.pending|), s.estimate(old(st.messages)))
  {
    hide Good, Calling, AnswersTo, BatchEvents, Refused, Answers, NoneNamed, Fitted;
    var batch;
    ok, batch := DisabledToolCalls(s, st.messages, st.pending);
    if ok {
      AllRefused(s, st.pending, batch.messages, Disabled, "Tool execution disabled.", s.estimate(st.messages),
                 old(s.events), s.events);
      st.raws := [];
      OpenAnswered(st.messages, st.assistant, st.pending, batch.messages);
      CallingItsOwn(st.assistant, st.pending);
      st.messages, st.toolBatch := st.messages + batch.messages, Some(batch);
      assert st.messages[|old(st.messages)|..] == batch.messages;
    }
  }

  /** The end of a model step that left calls open: answer them at once, or go and run them. */
  method CloseOrRun(s: Session, st: RunState) returns (ok: bool)
    requires st.phase == ModelPhase && st.modelErrors == 0 && st.toolBatch.None?
    requires OpenHistory(st.messages, st.assistant, st.pending) && CountedInStep(s, st)
    modifies s`events, s`canceled, st
    ensures ok ==> RunInv(s, st) && st.toolRounds == old(st.toolRounds) && Rank(st.phase) < Rank(ModelPhase)
    ensures ok ==> Closed(s, st.phase, st.status, st.failed, st.toolBatch, old(st.canceled),
                          0 <= st.maxToolRounds <= old(st.toolRounds))
    ensures ok ==>
      old(st.messages) <= st.messages
      && ClosingAnswers(s, old(st.canceled), st.maxToolRounds, st.toolRounds, st.pending, old(st.messages),
                        st.messages[|old(st.messages)|..], st.toolBatch, old(s.events), s.events)
    ensures st.pending == old(st.pending) && st.assistant == old(st.assistant) && st.modelErrors == old(st.modelErrors)
  {
    hide Good, Answered, CanceledMessage, LimitMessage, AllOf, BatchAnswers, OpenHistory, AllSay, Fitted, Repeat;
    if st.canceled {
      ok := SkipOpen(s, st, CanceledMessage);
      if !ok { return; }
      st.FinishWith(RunCanceled, true);
      return true;
    }
    if s.disableTools {
      ok := DisableOpen(s, st);
      if !ok { return; }
      st.phase := CompactPhase;
      return true;
    }
    if s.tools.None? {
      st.FinishWith(RunDone, false);
      return true;
    }
    if st.maxToolRounds >= 0 && st.toolRounds >= st.maxToolRounds {
      ok := SkipOpen(s, st, LimitMessage(st.maxToolRounds));
      if !ok { return; }
      var _ := s.Emit(RunError);
      st.FinishError();
      return true;
    }
    st.phase := ToolsPhase;
    return true;
  }

  lemma CallingItsOwn(m: Message, calls: seq<ToolCall>)
    requires Calling(m, calls)
    ensures Calling(m, m.toolCalls) && m.toolCalls == calls
  {}

  /** A failed request: a server error is retried with a message about it, any other ends the run. */
  method RetryOrFail(s: Session, st: RunState, failure: ChatOutcome) returns (ok: bool)
    requires failure.Failed? && st.phase == ModelPhase && st.modelErrors <= 2 && Good(st.messages) && st.toolBatch.None?
    requires Limited(s, st) ==>
      st.toolRounds <= st.maxToolRounds && s.batches <= st.toolRounds
        && s.requests <= 3 * st.toolRounds + st.modelErrors + 1
    modifies s`events, s`canceled, st`messages, st`modelErrors
    ensures ok <==> failure.status >= 500 && old(st.modelErrors) < 2
    ensures ok ==> RunInv(s, st) && st.modelErrors == old(st.modelErrors) + 1
    ensures ok ==> st.messages == old(st.messages) + [RetryMessage(failure.message)]
  {
    hide Good, RetryMessage, LeftOpen, OpenHistory, BatchAnswers;
    if failure.status >= 500 && st.modelErrors < 2 {
      RetryIsPlain(failure.message);
      PlainAppended(st.messages, RetryMessage(failure.message));
      st.modelErrors, st.messages := st.modelErrors + 1, st.messages + [RetryMessage(failure.message)];
      return true;
    }
    var _ := s.Emit(RunError);
    return false;
  }

  /** A reply goes into the history unless empty, and its calls are closed or run. */
  method TakeReply(s: Session, st: RunState, reply: Message, end: ChatOutcome) returns (ok: bool)
    requires !end.Failed? && FromModel(reply) && st.phase == ModelPhase && Good(st.messages) && st.toolBatch.None?
      && CountedInStep(s, st)
    modifies s`events, s`canceled, st
    ensures ok ==> RunInv(s, st) && st.toolRounds == old(st.toolRounds) && Rank(st.phase) < Rank(ModelPhase)
    ensures ok ==> AfterReply(s, st, old(st.messages), reply, end, old(s.events))
  {
    hide Good, FromModel, ClosingAnswers, Closed, LeftOpen, OpenHistory, BatchAnswers;
    var base := st.messages;
    st.modelErrors := 0;
    st.assistant, st.pending, st.canceled := reply, reply.toolCalls, end.CanceledChat?;
    if !MessageEmpty(reply) {
      st.messages := base + [reply];
    }
    if st.pending == [] {
      ReplyAppended(base, reply);
      st.toolBatch := None;
      st.phase := CompactPhase;
      return true;
    }
    CallsAreOpen(base, reply);
    ok := CloseOrRun(s, st);
  }

  /** runModelStep */
  method RunModelStep(s: Session, st: RunState)
    returns (ok: bool, ghost assistant: Message, ghost outcome: ChatOutcome, ghost heard: seq<Event>)
    requires RunInv(s, st) && st.phase == ModelPhase && CallsNoSummary(s.client)
    modifies s`events, s`canceled, s`requests, st
    ensures s.requests == old(s.requests) + 1
    ensures ok ==> RunInv(s, st)
    ensures ok ==> st.toolRounds == old(st.toolRounds)
    ensures ok ==>
      Rank(st.phase) < Rank(ModelPhase)
      || (st.phase == ModelPhase && st.modelErrors == old(st.modelErrors) + 1)
    ensures FromModel(assistant)
    ensures outcome.Finished? ==> assistant == Assembled(s.client(old(s.requests), old(st.messages)).chunks)
    ensures outcome.Failed? ==> (ok <==> outcome.status >= 500 && old(st.modelErrors) < 2)
    ensures ok && outcome.Failed? ==>
      st.phase == ModelPhase
      && st.messages == old(st.messages)
           + [Message(User, "Your previous response caused an error: " + outcome.message
                            + "\n\nPlease try again with a valid response.", "", "", "", [])]
    ensures ok && !outcome.Failed? ==> AfterReply(s, st, old(st.messages), assistant, outcome, heard)
    ensures outcome.Finished? ==>
      heard == old(s.events) + AllDeltas(s.client(old(s.requests), old(st.messages)).chunks)
  {
    hide Good, CallsNoSummary, Assembled, AllDeltas, FromModel, Closed, OpenHistory, BatchAnswers,
      AfterReply;
    var reply, end := ChatRound(s, st.messages);
    assistant, outcome, heard := reply, end, s.events;
    if end.Failed? {
      ok := RetryOrFail(s, st, end);
    } else {
      ok := TakeReply(s, st, reply, end);
    }
  }

  lemma ReplyAppended(base: seq<Message>, m: Message)
    requires Good(base) && FromModel(m) && m.toolCalls == []
    ensures Good(base + [m])
  {
    hide Good, NamesSummary;
    PlainAppended(base, m);
  }

  function RetryMessage(error: string): Message {
    Message(User, RetryPrefix + error + "\n\nPlease try again with a valid response.", "", "", "", [])
  }

  lemma RetryIsPlain(error: string)
    ensures IsPlain(RetryMessage(error))
  {}

  /** After a reply: it is part of the history unless empty; without calls the run goes on to compaction, with calls
      they are closed or run. */
  ghost predicate AfterReply(s: Session, st: RunState, base: seq<Message>, assistant: Message, outcome: ChatOutcome,
                             heard: seq<Event>)
    reads s, st
  {
    && st.assistant == assistant && st.pending == assistant.toolCalls && st.modelErrors == 0
    && if assistant.toolCalls == [] then
         && st.messages == (if assistant.content == "" && assistant.thinking == "" then base else base + [assistant])
         && st.phase == CompactPhase && st.toolBatch.None? && st.canceled == outcome.CanceledChat? && s.events == heard
       else
         && base + [assistant] <= st.messages
         && Closed(s, st.phase, st.status, st.failed, st.toolBatch, outcome.CanceledChat?,
                   0 <= st.maxToolRounds <= st.toolRounds)
         && ClosingAnswers(s, outcome.CanceledChat?, st.maxToolRounds, st.toolRounds, assistant.toolCalls,
                           base + [assistant], st.messages[|base| + 1..], st.toolBatch, heard, s.events)
  }

  lemma CallsAreOpen(base: seq<Message>, m: Message)
    requires Good(base) && FromModel(m) && m.toolCalls != []
    ensures OpenHistory(base + [m], m, m.toolCalls)
  {
    hide Good, NamesSummary;
    OpenAppended(base, m, m.toolCalls);
  }

  // ----- the tool step

  /** A finished batch answers its calls and records what was fully omitted. */
  lemma BatchIsRecorded(s: Session, tools: set<string>, calls: seq<ToolCall>, b: Batch, fates: seq<Fate>,
                        raws: seq<string>, history: nat, before: seq<Event>, now: seq<Event>)
    requires BatchDone(s, tools, calls, b, fates, raws, history, before, now)
    ensures Recorded(calls, b, if b.stop == StopDenied then [] else raws)
  {
    hide Fitted, BatchEvents, CameTo, FullyOmitted;
  }

  /** runToolStep */
  method RunToolStep(s: Session, st: RunState)
    returns (ok: bool, ghost done: Batch, ghost fates: seq<Fate>, ghost raws: seq<string>)
    requires RunInv(s, st) && st.phase == ToolsPhase
    modifies s`events, s`canceled, s`batches, st
    ensures s.batches == old(s.batches) + 1
    ensures ok ==> RunInv(s, st) && st.phase == CompactPhase
    ensures ok ==> st.toolRounds == old(st.toolRounds) && st.modelErrors == old(st.modelErrors)
    ensures ok ==> BatchDone(s, s.tools.value, old(st.pending), done, fates, raws, s.estimate(old(st.messages)),
                             old(s.events), s.events)
    ensures ok ==> AsApproved(s, Asks(s, s.tools.value, old(st.pending), |old(s.events)|),
                              s.approval(|old(s.events)|), old(st.pending), done.stop, raws)
    ensures ok && done.stop != StopDenied ==>
      Stops(s.tools.value, old(st.pending), done.stop, raws, old(s.canceled), s.canceled) && st.raws == raws
    ensures ok ==> st.messages == old(st.messages) + done.messages && st.toolBatch == Some(done)
    ensures st.assistant == old(st.assistant)
  {
    hide Good, BatchDone, Answers, NoneNamed, NamesSummary, Overflows, AnswerTo, Asks, AsApproved, Stops;
    ghost var before := s.events;
    s.batches := s.batches + 1;
    var batch;
    ok, batch, fates, raws := ExecuteToolCalls(s, st.messages, st.pending);
    done := batch;
    if !ok {
      var _ := s.Emit(RunError);
      return;
    }
    BatchIsRecorded(s, s.tools.value, st.pending, batch, fates, raws, s.estimate(st.messages), before, s.events);
    OpenAnswered(st.messages, st.assistant, st.pending, batch.messages);
    CallingItsOwn(st.assistant, st.pending);
    st.raws := if batch.stop == StopDenied then [] else raws;
    st.messages := st.messages + batch.messages;
    st.toolBatch := Some(batch);
    st.phase := CompactPhase;
  }

  // ----- the compaction step

  /** checkPostCompactionPromptBudget */
  predicate TooLarge(s: Session, ms: seq<Message>) { s.window > 0 && s.estimate(ms) >= s.window }

  /** What was asked of the compactor, and what that came to. */
  datatype Compacting =
    | NoCompactor
    | Asked(req: CompactionRequest, split: Split, result: CompactionResult, failed: bool)
  {
    predicate Compacted() { Asked? && result.compacted }
  }

  ghost predicate Came(s: Session, how: Compacting) {
    match how
    case NoCompactor => s.compactor.None?
    case Asked(req, split, result, failed) =>
      && s.compactor.Some? && IsSplit(req.messages, s.compactor.value.Keep(req), split)
      && s.compactor.value.Outcome(req, split, result, failed)
  }

  method SkippedMessage(reason: string) returns (message: string)
    ensures message == if TrimSpace(reason) == "" then "compaction could not run" else TrimSpace(reason)
  {
    hide TrimSpace;
    message := TrimSpace(reason);
    if message == "" {
      message := "compaction could not run";
    }
  }

  /** What a compaction is announced by: that it starts, when it is due; then the new history, or why there is none,
      unless that has been said before. */
  ghost predicate Announced(how: Compacting, now: seq<Message>, skipNotified: bool, events: seq<Event>) {
    match how
    case NoCompactor => events == []
    case Asked(_, _, r, _) =>
      if !r.due then events == []
      else if r.compacted then events == [CompactionStarted, Compacted(now, r.summary)]
      else if skipNotified then events == [CompactionStarted]
      else
        var reason := TrimSpace(r.reason);
        events == [CompactionStarted, CompactionSkipped(if reason == "" then "compaction could not run" else reason)]
  }

  /** Whether it has been said that there is none. */
  ghost predicate SaidSkipped(how: Compacting, skipNotified: bool, skip: bool) {
    skip <==> skipNotified || (how.Asked? && how.result.due && !how.result.compacted)
  }

  /** The history is what the compactor makes of it: as it was, or the leading system messages, a summary that
      continues the task and the turns kept of a split of it. */
  ghost predicate CompactedFrom(s: Session, was: seq<Message>, at: nat, now: seq<Message>, how: Compacting) {
    Came(s, how) && match how
      case NoCompactor => now == was
      case Asked(req, _, result, _) => req == CompactionRequest(was, false, true, None, at) && now == result.messages
  }

  lemma OutcomeGood(s: Session, how: Compacting)
    requires how.Asked? && Came(s, how) && Good(how.req.messages) && how.req.continueTask
    ensures Good(how.result.messages)
    ensures how.failed ==> !how.result.compacted
    ensures !how.result.compacted ==> how.result.messages == how.req.messages
    ensures how.result.due == s.compactor.value.Due(how.req)
    ensures how.result.compacted ==>
      && how.split.ok && how.result.due
      && how.result.messages == how.split.prefix + SummaryPair(how.result.summary, true) + how.split.suffix
  {
    hide Good, IsSplit, Trimmed, SummaryPair, TrimSpace;
    if how.result.compacted {
      CompactedGood(how.req.messages, s.compactor.value.Keep(how.req), how.split, how.result.summary, true);
    }
  }

  /** The compactor is asked. */
  method AskCompactor(s: Session, req: CompactionRequest) returns (r: CompactionResult, failed: bool,
                                                                   ghost how: Compacting)
    requires s.compactor.Some? && Good(req.messages) && req.continueTask
    ensures how.Asked? && how.req == req && how.result == r && how.failed == failed && Came(s, how)
    ensures Good(r.messages) && (failed ==> !r.compacted) && (!r.compacted ==> r.messages == req.messages)
    ensures r.due == s.compactor.value.Due(req) && (r.compacted ==> r.due && how.split.ok)
    ensures r.compacted ==> r.messages == how.split.prefix + SummaryPair(r.summary, true) + how.split.suffix
  {
    hide Good, IsSplit, SummaryPair;
    ghost var split;
    r, failed, split := s.compactor.value.MaybeCompact(req);
    how := Asked(req, split, r, failed);
    OutcomeGood(s, how);
  }

  /** maybeCompact */
  method MaybeCompact(s: Session, messages: seq<Message>, skipNotified: bool)
    returns (ms: seq<Message>, skip: bool, tooLarge: bool, ghost how: Compacting)
    requires Good(messages)
    modifies s`events, s`canceled
    ensures Good(ms) && CompactedFrom(s, messages, |old(s.events)|, ms, how)
    ensures tooLarge <==> how.Compacted() && s.window > 0 && s.estimate(ms) >= s.window
    ensures old(s.events) <= s.events && Announced(how, ms, skipNotified, s.events[|old(s.events)|..])
    ensures SaidSkipped(how, skipNotified, skip)
  {
    hide Good, IsSplit, SummaryPair, Trimmed, TrimSpace;
    ms, skip, tooLarge, how := messages, skipNotified, false, NoCompactor;
    if s.compactor.None? {
      return;
    }
    var req := CompactionRequest(messages, false, true, None, |s.events|);
    if s.compactor.value.Due(req) {
      var _ := s.Emit(CompactionStarted);
    }
    var result, failed;
    result, failed, how := AskCompactor(s, req);
    if failed || !result.compacted {
      if result.due && !skipNotified {
        var message := SkippedMessage(result.reason);
        var _ := s.Emit(CompactionSkipped(message));
        skip := true;
      }
      return;
    }
    ms := result.messages;
    var _ := s.Emit(Compacted(result.messages, result.summary));
    tooLarge := TooLarge(s, ms);
  }

  // ----- the round that overflowed

  /** The last overflow recorded under an ID, as the map built from the list holds it. */
  function OverflowFor(overflows: seq<Overflow>, id: string): Option<Overflow> {
    if overflows == [] then None
    else if overflows[|overflows| - 1].id == id then Some(overflows[|overflows| - 1])
    else OverflowFor(overflows[..|overflows| - 1], id)
  }

  /** An answer to be sized again: with the full text if it overflowed. */
  function Original(m: Message, overflows: seq<Overflow>): Message {
    match OverflowFor(overflows, m.toolCallID)
    case None => m
    case Some(o) => m.(content := o.content, toolName := if o.name != "" then o.name else m.toolName)
  }

  /** Call j is the last of the first n calls with this ID whose answer was fully omitted. */
  ghost predicate LastOmitted(calls: seq<ToolCall>, ms: seq<Message>, n: nat, id: string, j: nat)
    requires n <= |calls| && n <= |ms|
  {
    && j < n && calls[j].id == id && FullyOmitted(ms[j].content)
    && forall k :: j < k < n && calls[k].id == id ==> !FullyOmitted(ms[k].content)
  }

  ghost predicate NoneOmitted(calls: seq<ToolCall>, ms: seq<Message>, n: nat, id: string)
    requires n <= |calls| && n <= |ms|
  {
    forall k :: 0 <= k < n && calls[k].id == id ==> !FullyOmitted(ms[k].content)
  }

  /** What the list of overflows holds under an ID is the last answer with it that was fully omitted. */
  lemma {:induction false} OverflowIsLast(calls: seq<ToolCall>, ms: seq<Message>, raws: seq<string>, id: string)
    returns (j: nat)
    requires |calls| == |ms| == |raws|
    ensures match OverflowFor(Overflows(calls, ms, raws), id)
      case None => NoneOmitted(calls, ms, |raws|, id)
      case Some(o) => j < |raws| && LastOmitted(calls, ms, |raws|, id, j) && o == Overflow(calls[j].name, id, raws[j])
  {
    hide FullyOmitted;
    j := 0;
    if calls != [] {
      var n := |calls| - 1;
      OverflowStep(calls, ms, raws, id);
      if FullyOmitted(ms[n].content) && calls[n].id == id {
        j := n;
      } else {
        hide Overflows, OverflowFor;
        j := OverflowIsLast(calls[..n], ms[..n], raws[..n], id);
        SameOmissions(calls, ms, n, id);
        OneMoreCall(calls, ms, n, id);
      }
    }
  }

  lemma OverflowStep(calls: seq<ToolCall>, ms: seq<Message>, raws: seq<string>, id: string)
    requires |calls| == |ms| == |raws| > 0
    ensures var n := |calls| - 1;
      OverflowFor(Overflows(calls, ms, raws), id)
        == if FullyOmitted(ms[n].content) && calls[n].id == id then Some(Overflow(calls[n].name, id, raws[n]))
           else OverflowFor(Overflows(calls[..n], ms[..n], raws[..n]), id)
  {
    hide FullyOmitted;
    var n := |calls| - 1;
    var earlier := Overflows(calls[..n], ms[..n], raws[..n]);
    var last := Overflow(calls[n].name, calls[n].id, raws[n]);
    if FullyOmitted(ms[n].content) {
      assert Overflows(calls, ms, raws) == earlier + [last];
      assert (earlier + [last])[..|earlier|] == earlier;
    } else {
      assert Overflows(calls, ms, raws) == earlier;
    }
  }

  /** A call that is not fully omitted or has another ID changes nothing. */
  lemma OneMoreCall(calls: seq<ToolCall>, ms: seq<Message>, n: nat, id: string)
    requires n < |calls| && n < |ms| && (calls[n].id != id || !FullyOmitted(ms[n].content))
    ensures NoneOmitted(calls, ms, n, id) <==> NoneOmitted(calls, ms, n + 1, id)
    ensures forall j: nat :: LastOmitted(calls, ms, n, id, j) ==> LastOmitted(calls, ms, n + 1, id, j)
  {
    hide FullyOmitted;
  }

  /** The answer again: sized to what the compacted history and the answers before it leave of the context window. It
      says what the last answer with its ID would have said that was fully omitted, under that call's name, and
      otherwise what it said before. */
  ghost predicate Restored(s: Session, calls: seq<ToolCall>, raws: seq<string>, was: seq<Message>, i: nat,
                           earlier: seq<Message>, history: nat, now: Message)
    requires i < |was| == |calls| && |raws| <= |calls|
  {
    var base := history + MessagesTokens(earlier);
    && (forall j: nat :: LastOmitted(calls, was, |raws|, calls[i].id, j) ==>
          SizedToSome(now, if calls[j].name != "" then calls[j].name else calls[i].name, calls[i].id, raws[j],
                      s.window, base, s.window))
    && (NoneOmitted(calls, was, |raws|, calls[i].id) ==>
          SizedToSome(now, calls[i].name, calls[i].id, was[i].content, s.window, base, s.window))
  }

  ghost predicate RestoredAt(s: Session, calls: seq<ToolCall>, raws: seq<string>, was: seq<Message>, now: seq<Message>,
                             history: nat, i: nat)
    requires i < |was| == |calls| && |raws| <= |calls| && i < |now|
  {
    Restored(s, calls, raws, was, i, now[..i], history, now[i])
  }

  ghost predicate AllRestored(s: Session, calls: seq<ToolCall>, raws: seq<string>, was: seq<Message>,
                              now: seq<Message>, history: nat) {
    && |raws| <= |calls| == |was| && |now| <= |was|
    && forall i :: 0 <= i < |now| ==> RestoredAt(s, calls, raws, was, now, history, i)
  }

  lemma OriginalRestored(s: Session, calls: seq<ToolCall>, b: Batch, raws: seq<string>, i: nat, earlier: seq<Message>,
                         history: nat, now: Message)
    requires Recorded(calls, b, raws) && i < |calls|
    requires var m := Original(b.messages[i], b.overflows);
      now == ToolMessageWithBudget(m.toolName, calls[i].id, m.content, s.window, history + MessagesTokens(earlier),
                                   s.window)
    ensures Restored(s, calls, raws, b.messages, i, earlier, history, now)
  {
    hide Original, IsOriginal, Restored, SizedToSome, ToolMessageWithBudget, MessagesTokens, Overflows, AnswerTo;
    var m := Original(b.messages[i], b.overflows);
    BudgetIsSized(now, m.toolName, calls[i].id, m.content, s.window, history + MessagesTokens(earlier), s.window);
    OriginalIsLast(calls, b, raws, i);
    SizedRestored(s, calls, raws, b.messages, i, earlier, history, now, m.toolName, m.content);
  }

  /** What an answer is sized again from. */
  ghost predicate IsOriginal(calls: seq<ToolCall>, raws: seq<string>, was: seq<Message>, i: nat, name: string,
                             text: string)
    requires i < |was| == |calls| && |raws| <= |calls|
  {
    && (forall j: nat :: LastOmitted(calls, was, |raws|, calls[i].id, j) ==>
          name == (if calls[j].name != "" then calls[j].name else calls[i].name) && text == raws[j])
    && (NoneOmitted(calls, was, |raws|, calls[i].id) ==> name == calls[i].name && text == was[i].content)
  }

  lemma SizedRestored(s: Session, calls: seq<ToolCall>, raws: seq<string>, was: seq<Message>, i: nat,
                      earlier: seq<Message>, history: nat, now: Message, name: string, text: string)
    requires i < |was| == |calls| && |raws| <= |calls| && IsOriginal(calls, raws, was, i, name, text)
    requires SizedToSome(now, name, calls[i].id, text, s.window, history + MessagesTokens(earlier), s.window)
    ensures Restored(s, calls, raws, was, i, earlier, history, now)
  {
    hide FullyOmitted, MessagesTokens, SizedToSome, NoneOmitted;
  }

  lemma OriginalIsLast(calls: seq<ToolCall>, b: Batch, raws: seq<string>, i: nat)
    requires Recorded(calls, b, raws) && i < |calls|
    ensures var m := Original(b.messages[i], b.overflows);
      IsOriginal(calls, raws, b.messages, i, m.toolName, m.content)
  {
    hide FullyOmitted, Overflows, OverflowFor, LastOmitted, NoneOmitted;
    var n, id := |raws|, calls[i].id;
    assert AnswerTo(b.messages[i], calls[i]);
    var j := OverflowIsLast(calls[..n], b.messages[..n], raws, id);
    SameOmissions(calls, b.messages, n, id);
    if OverflowFor(b.overflows, id).Some? {
      assert LastOmitted(calls, b.messages, n, id, j) && calls[..n][j] == calls[j];
      OneLast(calls, b.messages, n, id, j);
    } else {
      NoLast(calls, b.messages, n, id);
    }
  }

  lemma SameOmissions(calls: seq<ToolCall>, ms: seq<Message>, n: nat, id: string)
    requires n <= |calls| && n <= |ms|
    ensures NoneOmitted(calls[..n], ms[..n], n, id) <==> NoneOmitted(calls, ms, n, id)
    ensures forall j: nat :: LastOmitted(calls[..n], ms[..n], n, id, j) <==> LastOmitted(calls, ms, n, id, j)
  {
    hide FullyOmitted;
  }

  lemma OneLast(calls: seq<ToolCall>, ms: seq<Message>, n: nat, id: string, j: nat)
    requires n <= |calls| && n <= |ms| && LastOmitted(calls, ms, n, id, j)
    ensures !NoneOmitted(calls, ms, n, id) && forall k: nat :: LastOmitted(calls, ms, n, id, k) ==> k == j
  {
    hide FullyOmitted;
  }

  lemma NoLast(calls: seq<ToolCall>, ms: seq<Message>, n: nat, id: string)
    requires n <= |calls| && n <= |ms| && NoneOmitted(calls, ms, n, id)
    ensures forall k: nat :: !LastOmitted(calls, ms, n, id, k)
  {
    hide FullyOmitted;
  }

  lemma RestoredSnoc(s: Session, calls: seq<ToolCall>, raws: seq<string>, was: seq<Message>, now: seq<Message>,
                     history: nat, m: Message)
    requires AllRestored(s, calls, raws, was, now, history) && |now| < |was|
    requires Restored(s, calls, raws, was, |now|, now, history, m)
    ensures AllRestored(s, calls, raws, was, now + [m], history)
  {
    hide Restored;
    forall i | 0 <= i < |now| + 1 ensures RestoredAt(s, calls, raws, was, now + [m], history, i) {
      if i < |now| {
        assert RestoredAt(s, calls, raws, was, now, history, i);
        assert (now + [m])[..i] == now[..i];
      } else {
        assert (now + [m])[..i] == now;
      }
    }
  }

  /** The loop that sizes the round's answers again. */
  method RefitMessages(s: Session, b: Batch, history: nat, ghost calls: seq<ToolCall>, ghost raws: seq<string>)
    returns (refits: seq<Message>)
    requires Recorded(calls, b, raws)
    ensures |refits| == |b.messages| && AllRestored(s, calls, raws, b.messages, refits, history)
  {
    hide Restored, ToolMessageWithBudget, MessagesTokens, Original, Overflows, AnswerTo;
    refits := [];
    assert AllRestored(s, calls, raws, b.messages, [], history);
    for i := 0 to |b.messages|
      invariant |refits| == i && AllRestored(s, calls, raws, b.messages, refits, history)
    {
      var m := Original(b.messages[i], b.overflows);
      assert b.messages[i].toolCallID == calls[i].id by { IdOfAnswer(b.messages, calls, i); }
      var refit := ToolMessageWithBudget(m.toolName, b.messages[i].toolCallID, m.content, s.window,
                                         history + MessagesTokens(refits), s.window);
      OriginalRestored(s, calls, b, raws, i, refits, history, refit);
      RestoredSnoc(s, calls, raws, b.messages, refits, history, refit);
      refits := refits + [refit];
    }
  }

  lemma IdOfAnswer(ms: seq<Message>, calls: seq<ToolCall>, i: nat)
    requires AnswersTo(ms, calls) && i < |calls|
    ensures ms[i].toolCallID == calls[i].id
  {
    assert AnswerTo(ms[i], calls[i]);
  }

  /** The name and the text of a restored answer: a call's of the batch. */
  lemma RestoredFrom(s: Session, calls: seq<ToolCall>, raws: seq<string>, was: seq<Message>, i: nat,
                     earlier: seq<Message>, history: nat, now: Message) returns (name: string, text: string)
    requires i < |was| == |calls| && |raws| <= |calls|
    requires Restored(s, calls, raws, was, i, earlier, history, now)
    ensures SizedToSome(now, name, calls[i].id, text, s.window, history + MessagesTokens(earlier), s.window)
    ensures exists k :: 0 <= k < |calls| && calls[k].name == name
    ensures text == was[i].content || text in raws
  {
    hide SizedToSome, FullyOmitted, MessagesTokens;
    name, text := calls[i].name, was[i].content;
    var id := calls[i].id;
    if !NoneOmitted(calls, was, |raws|, id) {
      var j := LastOf(calls, was, |raws|, id);
      name, text := if calls[j].name != "" then calls[j].name else calls[i].name, raws[j];
    }
  }

  lemma {:induction false} LastOf(calls: seq<ToolCall>, ms: seq<Message>, n: nat, id: string) returns (j: nat)
    requires n <= |calls| && n <= |ms| && !NoneOmitted(calls, ms, n, id)
    ensures LastOmitted(calls, ms, n, id, j)
  {
    hide FullyOmitted;
    if calls[n - 1].id == id && FullyOmitted(ms[n - 1].content) {
      j := n - 1;
    } else {
      j := LastOf(calls, ms, n - 1, id);
    }
  }

  /** Answers sized again still answer the same calls under harmless names. */
  lemma RefitAnswers(s: Session, assistant: Message, b: Batch, raws: seq<string>, refits: seq<Message>, history: nat)
    requires BatchAnswers(assistant, b, raws) && |refits| == |b.messages|
    requires AllRestored(s, assistant.toolCalls, raws, b.messages, refits, history)
    ensures Answers(refits, assistant.toolCalls) && NoneNamed(refits)
  {
    hide RestoredAt, SummaryName, Recorded, Calling, IsAnswer;
    var calls := assistant.toolCalls;
    CallsHarmless(assistant, calls);
    forall i | 0 <= i < |refits| ensures IsAnswer(refits[i], calls[i]) && refits[i].toolName != SummaryName {
      RefitAnswer(s, calls, raws, b.messages, refits, history, i);
    }
  }

  lemma CallsHarmless(m: Message, calls: seq<ToolCall>)
    requires Calling(m, calls)
    ensures forall k :: 0 <= k < |calls| ==> calls[k].name != SummaryName
  {
    hide SummaryName;
  }

  lemma RefitAnswer(s: Session, calls: seq<ToolCall>, raws: seq<string>, was: seq<Message>, now: seq<Message>,
                    history: nat, i: nat)
    requires i < |was| == |calls| && |raws| <= |calls| && i < |now| && RestoredAt(s, calls, raws, was, now, history, i)
    ensures IsAnswer(now[i], calls[i]) && exists k :: 0 <= k < |calls| && calls[k].name == now[i].toolName
  {
    hide Restored, SizedToSome, MessagesTokens;
    var name, text := RestoredFrom(s, calls, raws, was, i, now[..i], history, now[i]);
    SizedShape(now[i], name, calls[i].id, text, s.window, history + MessagesTokens(now[..i]), s.window);
  }

  lemma SizedShape(m: Message, name: string, id: string, text: string, window: int, base: int, budget: int)
    requires SizedToSome(m, name, id, text, window, base, budget)
    ensures m == ToolMessage(name, id, m.content)
  {
    hide TruncateToolResult, MessagesTokens;
  }

  /** After overflow compaction too, each answer stays below the context window or is fully omitted. */
  lemma RefitKeepsBudget(s: Session, calls: seq<ToolCall>, b: Batch, raws: seq<string>, now: seq<Message>,
                         history: nat, i: nat)
    requires AllRestored(s, calls, raws, b.messages, now, history) && i < |now| && s.window > 0
    requires |b.messages[i].content| < Pow10(77) && forall k :: 0 <= k < |raws| ==> |raws[k]| < Pow10(77)
    ensures history + MessagesTokens(now[..i + 1]) < s.window || FullyOmitted(now[i].content)
  {
    hide ToolMessageWithBudget, FullyOmitted, MessageTokens, Restored, SizedToSome, Pow10;
    assert RestoredAt(s, calls, raws, b.messages, now, history, i);
    var name, text := RestoredFrom(s, calls, raws, b.messages, i, now[..i], history, now[i]);
    var base := history + MessagesTokens(now[..i]);
    BudgetIsSized(now[i], name, calls[i].id, text, s.window, base, s.window);
    BudgetKept(name, calls[i].id, text, s.window, base, s.window);
    OneMessageTokens(now[i]);
    assert now[..i + 1][..i] == now[..i];
  }

  /** With distinct call IDs, an answer that a finished batch fully omitted says what its own call came to, whole if
      that is short enough and there is room for it, and otherwise cut. */
  lemma OmittedSaidAgain(s: Session, tools: set<string>, calls: seq<ToolCall>, b: Batch, fates: seq<Fate>,
                         raws: seq<string>, before: seq<Event>, events: seq<Event>, at: nat, now: seq<Message>,
                         history: nat, i: nat)
    requires BatchDone(s, tools, calls, b, fates, raws, at, before, events)
    requires forall j, k :: 0 <= j < k < |calls| ==> calls[j].id != calls[k].id
    requires AllRestored(s, calls, raws, b.messages, now, history)
    requires i < |raws| && i < |now| && FullyOmitted(b.messages[i].content)
    ensures exists k: nat :: now[i] == ToolMessage(calls[i].name, calls[i].id, TruncateToolResult(raws[i], k))
    ensures
      var whole := ToolMessage(calls[i].name, calls[i].id, raws[i]);
      |raws[i]| <= MaxRunes(s.window) ==>
        (s.window <= 0 || history + MessagesTokens(now[..i]) + MessagesTokens([whole]) < s.window ==> now[i] == whole)
  {
    hide BatchDone, FullyOmitted, MessagesTokens, MaxRunes, ToolMessageWithBudget, TruncateToolResult;
    assert RestoredAt(s, calls, raws, b.messages, now, history, i);
    var base, c := history + MessagesTokens(now[..i]), calls[i];
    assert LastOmitted(calls, b.messages, |raws|, c.id, i);
    assert SizedToSome(now[i], c.name, c.id, raws[i], s.window, base, s.window);
    BudgetIsSized(now[i], c.name, c.id, raws[i], s.window, base, s.window);
    if |raws[i]| <= MaxRunes(s.window)
      && (s.window <= 0 || base + MessagesTokens([ToolMessage(c.name, c.id, raws[i])]) < s.window)
    {
      SmallOutputWhole(c.name, c.id, raws[i], s.window, base, s.window);
    }
  }

  /** The history is as it was, or is the leading system messages and a summary of all the rest, followed by the
      round that overflowed with its answers restored. */
  ghost predicate OverflowCompacted(s: Session, was: seq<Message>, assistant: Message, b: Batch, raws: seq<string>,
                                    at: nat, now: seq<Message>, how: Compacting, refits: seq<Message>) {
    Came(s, how) && match how
      case NoCompactor => now == was
      case Asked(req, _, result, _) =>
        && req == CompactionRequest(was, true, true, Some(0), at)
        && if !result.compacted then now == was
           else
             && now == result.messages + [assistant] + refits && |refits| == |b.messages|
             && AllRestored(s, assistant.toolCalls, raws, b.messages, refits,
                            s.estimate(result.messages + [assistant]))
  }

  /** compactForToolOutputOverflow: the whole history is archived, and the round that overflowed follows the
      summary with its answers sized again. */
  method CompactForToolOutputOverflow(s: Session, messages: seq<Message>, assistant: Message, b: Batch,
                                      skipNotified: bool, ghost raws: seq<string>)
    returns (ms: seq<Message>, skip: bool, tooLarge: bool, ghost how: Compacting, ghost refits: seq<Message>)
    requires Good(messages) && BatchAnswers(assistant, b, raws)
    modifies s`events, s`canceled
    ensures Good(ms) && OverflowCompacted(s, messages, assistant, b, raws, |old(s.events)|, ms, how, refits)
    ensures tooLarge <==> how.Compacted() && s.window > 0 && s.estimate(ms) >= s.window
    ensures old(s.events) <= s.events && Announced(how, ms, skipNotified, s.events[|old(s.events)|..])
    ensures SaidSkipped(how, skipNotified, skip)
  {
    hide Good, IsSplit, SummaryPair, Trimmed, AllRestored, Answers, NoneNamed, Recorded, TrimSpace;
    ms, skip, tooLarge, how, refits := messages, skipNotified, false, NoCompactor, [];
    if s.compactor.None? {
      return;
    }
    var req := CompactionRequest(messages, true, true, Some(0), |s.events|);
    var _ := s.Emit(CompactionStarted);
    var result, failed;
    result, failed, how := AskCompactor(s, req);
    if failed || !result.compacted {
      if result.due && !skipNotified {
        var message := SkippedMessage(result.reason);
        var _ := s.Emit(CompactionSkipped(message));
        skip := true;
      }
      return;
    }
    var compacted := result.messages;
    if !MessageEmpty(assistant) {
      compacted := compacted + [assistant];
    }
    var again := RefitMessages(s, b, s.estimate(compacted), assistant.toolCalls, raws);
    RefitAnswers(s, assistant, b, raws, again, s.estimate(compacted));
    RefitGood(result.messages, assistant, again);
    refits := again;
    ms := compacted + again;
    var _ := s.Emit(Compacted(ms, result.summary));
    tooLarge := TooLarge(s, ms);
  }

  lemma RefitGood(base: seq<Message>, assistant: Message, refits: seq<Message>)
    requires Good(base) && Calling(assistant, assistant.toolCalls)
    requires Answers(refits, assistant.toolCalls) && NoneNamed(refits)
    ensures Good(base + [assistant] + refits)
  {
    hide Good, Answers, NoneNamed;
    GoodGroup(assistant, refits);
    GoodConcat(base, [assistant] + refits);
    assert base + [assistant] + refits == base + ([assistant] + refits);
  }

  /** Where a compaction step leads: to an error when the compacted history is still too large, to the end without
      a batch or with one that was stopped, and otherwise on to the next round. */
  ghost predicate Settled(phase: Phase, status: Option<RunStatus>, failed: bool, batch: Option<Batch>, canceled: bool,
                          tooLarge: bool) {
    if tooLarge then phase == DonePhase && failed
    else if batch.None? then phase == DonePhase && status == Some(if canceled then RunCanceled else RunDone)
    else match batch.value.stop
      case StopDenied => phase == DonePhase && status == Some(RunDenied)
      case StopCanceled => phase == DonePhase && status == Some(RunCanceled)
      case GoOn => phase == ModelPhase
  }

  /** The end of a compaction step: where the batch's outcome leads. */
  method SettleBatch(s: Session, st: RunState, tooLarge: bool)
    requires RunInv(s, st) && st.phase == CompactPhase
    modifies s`events, s`canceled, st
    ensures RunInv(s, st) && st.messages == old(st.messages)
    ensures (st.phase == DonePhase && st.toolRounds == old(st.toolRounds))
         || (st.phase == ModelPhase && st.toolRounds == old(st.toolRounds) + 1)
    ensures Settled(st.phase, st.status, st.failed, old(st.toolBatch), old(st.canceled), tooLarge)
    ensures s.events == old(s.events) + if tooLarge then [RunError] else []
    ensures st.skipNotified == old(st.skipNotified)
  {
    hide Good, BatchAnswers, LeftOpen;
    if tooLarge {
      var _ := s.Emit(RunError);
      st.FinishError();
      return;
    }
    if st.toolBatch.None? {
      st.FinishWith(if st.canceled then RunCanceled else RunDone, st.canceled);
      return;
    }
    match st.toolBatch.value.stop {
      case StopDenied => st.FinishWith(RunDenied, false);
      case StopCanceled => st.FinishWith(RunCanceled, true);
      case GoOn =>
        st.toolRounds := st.toolRounds + 1;
        st.assistant, st.pending, st.toolBatch := NoMessage, [], None;
        st.phase := ModelPhase;
    }
  }

  /** runCompactionStep */
  method RunCompactionStep(s: Session, st: RunState) returns (ghost how: Compacting, ghost refits: seq<Message>)
    requires RunInv(s, st) && st.phase == CompactPhase
    modifies s`events, s`canceled, st
    ensures RunInv(s, st)
    ensures (st.phase == DonePhase && st.toolRounds == old(st.toolRounds))
         || (st.phase == ModelPhase && st.toolRounds == old(st.toolRounds) + 1)
    ensures if old(st.toolBatch).Some? && old(st.toolBatch).value.overflows != []
            then OverflowCompacted(s, old(st.messages), old(st.assistant), old(st.toolBatch).value, old(st.raws),
                                   |old(s.events)|, st.messages, how, refits)
            else CompactedFrom(s, old(st.messages), |old(s.events)|, st.messages, how)
    ensures
      var tooLarge := how.Compacted() && s.window > 0 && s.estimate(st.messages) >= s.window;
      var said := |s.events| - if tooLarge then 1 else 0;
      && Settled(st.phase, st.status, st.failed, old(st.toolBatch), old(st.canceled), tooLarge)
      && |old(s.events)| <= said && old(s.events) <= s.events
      && Announced(how, st.messages, old(st.skipNotified), s.events[|old(s.events)|..said])
      && (tooLarge ==> s.events[said] == RunError)
    ensures SaidSkipped(how, old(st.skipNotified), st.skipNotified)
  {
    hide Good, BatchAnswers, OverflowCompacted, CompactedFrom, LeftOpen, Settled, Announced;
    var messages, skip, large;
    refits := [];
    if st.toolBatch.Some? && st.toolBatch.value.overflows != [] {
      messages, skip, large, how, refits :=
        CompactForToolOutputOverflow(s, st.messages, st.assistant, st.toolBatch.value, st.skipNotified, st.raws);
    } else {
      messages, skip, large, how := MaybeCompact(s, st.messages, st.skipNotified);
    }
    st.messages, st.skipNotified := messages, skip;
    SettleBatch(s, st, large);
  }

  // ----- the run

  /** At most M tool batches and 3(M+1) chat requests. */
  ghost predicate WithinLimit(s: Session, st: RunState)
    reads s
  {
    s.batches <= st.maxToolRounds && s.requests <= 3 * (st.maxToolRounds + 1)
  }

  /** Every phase does its step. */
  method Step(s: Session, st: RunState) returns (ok: bool)
    requires RunInv(s, st) && st.phase != DonePhase && CallsNoSummary(s.client)
    modifies s, st
    ensures ok ==> RunInv(s, st)
    ensures Limited(s, st) ==> WithinLimit(s, st)
    ensures ok && Limited(s, st) ==>
      || st.toolRounds > old(st.toolRounds)
      || (st.toolRounds == old(st.toolRounds)
          && (Rank(st.phase) < old(Rank(st.phase))
              || (Rank(st.phase) == old(Rank(st.phase)) && st.modelErrors > old(st.modelErrors))))
  {
    hide Good, CallsNoSummary, BatchAnswers, OpenHistory;
    match st.phase
    case ModelPhase =>
      ghost var assistant, outcome, heard;
      ok, assistant, outcome, heard := RunModelStep(s, st);
    case ToolsPhase =>
      ghost var batch, fates, raws;
      ok, batch, fates, raws := RunToolStep(s, st);
    case CompactPhase =>
      ghost var how, refits;
      how, refits := RunCompactionStep(s, st);
      ok := true;
  }

  /** What the last history of a run is: well paired, except that without a registry the run may stop on calls
      that nobody answers. */
  ghost predicate EndsPaired(s: Session, st: RunState)
    reads s, st
  {
    WellPaired(st.messages) <==> !LeftOpen(s, st)
  }

  lemma DoneIsPaired(s: Session, st: RunState)
    requires RunInv(s, st) && st.phase == DonePhase
    ensures EndsPaired(s, st)
    ensures s.tools.Some? || s.disableTools ==> WellPaired(st.messages)
  {
    if LeftOpen(s, st) { OpenNotPaired(st.messages, st.assistant, st.pending); }
  }

  /** Run with a round limit and tools on: it terminates within the limit, also when it fails. */
  method RunLimited(s: Session, st: RunState) returns (ok: bool)
    requires RunInv(s, st) && Limited(s, st) && CallsNoSummary(s.client)
    modifies s, st
    ensures ok ==> st.phase == DonePhase && RunInv(s, st) && EndsPaired(s, st)
    ensures WithinLimit(s, st)
  {
    hide CallsNoSummary, OpenHistory, Good, BatchAnswers;
    ok := true;
    while st.phase != DonePhase && ok
      invariant WithinLimit(s, st) && (ok ==> RunInv(s, st))
      decreases ok, st.maxToolRounds - st.toolRounds, Rank(st.phase), 2 - st.modelErrors
    {
      ok := Step(s, st);
    }
    if ok { DoneIsPaired(s, st); }
  }

  /** Any run, for any number of steps: every history the loop passes through is good, with the calls under way
      open at most. */
  method RunSteps(s: Session, st: RunState, steps: nat) returns (ok: bool)
    requires RunInv(s, st) && CallsNoSummary(s.client)
    modifies s, st
    ensures ok ==> RunInv(s, st)
    ensures ok && st.phase == DonePhase ==> EndsPaired(s, st)
  {
    hide CallsNoSummary, OpenHistory, Good, BatchAnswers;
    ok := true;
    for i := 0 to steps
      invariant ok ==> RunInv(s, st)
    {
      if st.phase == DonePhase || !ok {
        break;
      }
      ok := Step(s, st);
    }
    if ok && st.phase == DonePhase { DoneIsPaired(s, st); }
  }

  // ----- starting and finishing

  /** buildRunMessages, up to the prompt-budget check. */
  method BuildRunMessages(messages: seq<Message>, newMessages: seq<Message>) returns (built: seq<Message>)
    ensures built == SanitizeAll(messages + newMessages)
    ensures forall i :: 0 <= i < |built| ==> OnlyLongResultsCut((messages + newMessages)[i], built[i])
  {
    hide Sanitize, OnlyLongResultsCut;
    built := [];
    var all := messages + newMessages;
    for i := 0 to |messages|
      invariant built == SanitizeAll(all[..i])
    {
      built := built + [Sanitize(messages[i])];
    }
    for i := 0 to |newMessages|
      invariant built == SanitizeAll(all[..|messages| + i])
    {
      built := built + [Sanitize(newMessages[i])];
    }
    assert all[..|messages| + |newMessages|] == all;
    forall i | 0 <= i < |built| ensures OnlyLongResultsCut(all[i], built[i]) { SanitizeCuts(all[i]); }
  }

  const SkillTool := "skill"

  /** activateSkill: a skill asked for by name goes in as a call and its result. */
  method ActivateSkill(s: Session, name: string, id: string, content: Option<string>)
    returns (ok: bool, ms: seq<Message>)
    modifies s`events, s`canceled
    ensures ok ==> Good(ms)
    ensures ok && TrimSpace(name) == "" ==> ms == []
    ensures ok && TrimSpace(name) != "" ==>
      && content.Some? && |ms| == 2 && ms[1] == ToolMessage(SkillTool, id, content.value)
      && ms[0].toolCalls == [ToolCall(id, SkillTool, name)]
      && s.events ==
         old(s.events) + [ToolCallsDetected(ms[0].toolCalls)] + BatchEvents(ms[0].toolCalls, ms[1..], [Ran(true)])
  {
    hide Good, TrimSpace;
    NothingGood();
    if TrimSpace(name) == "" {
      return true, [];
    }
    var canceled := s.CheckCanceled();
    if canceled || content.None? {
      return false, [];
    }
    var call := ToolCall(id, SkillTool, name);
    var result := ToolMessage(SkillTool, id, content.value);
    ok := s.Emit(ToolCallsDetected([call]));
    if !ok { return false, []; }
    ok := s.Emit(ToolStarted(id, SkillTool));
    if !ok { return false, []; }
    ok := s.EmitIgnoringCanceled(ToolFinished(ToolDone, id, SkillTool, content.value));
    if !ok { return false, []; }
    var assistant := Message(Assistant, "", "", "", "", [call]);
    SkillGroup(assistant, call, result);
    ms := [assistant, result];
    assert ms[1..] == [result];
  }

  lemma SkillGroup(assistant: Message, call: ToolCall, result: Message)
    requires call.name == SkillTool && assistant == Message(Assistant, "", "", "", "", [call])
    requires result == ToolMessage(SkillTool, call.id, result.content)
    ensures Good([assistant, result])
    ensures BatchEvents([call], [result], [Ran(true)])
         == [ToolStarted(call.id, SkillTool), ToolFinished(ToolDone, call.id, SkillTool, result.content)]
  {
    hide Good;
    assert SkillTool[1] == 'k' && SummaryName[1] == 'u';
    GoodGroup(assistant, [result]);
    assert [assistant] + [result] == [assistant, result];
    assert [call][..0] == [] && [result][..0] == [] && [Ran(true)][..0] == [];
  }

  /** Run up to its loop: what can refuse to start it leaves the history alone. */
  method StartRun(s: Session, messages: seq<Message>, newMessages: seq<Message>, skill: string, skillID: string,
                  skillContent: Option<string>, cloud: bool, maxToolRounds: int) returns (st: RunState?)
    requires Good(messages + newMessages)
    modifies s
    ensures st != null ==> fresh(st) && RunInv(s, st) && st.phase == ModelPhase
    ensures st != null ==> s.window <= 0 || s.estimate(st.messages) < s.window
    ensures st != null ==>
      st.maxToolRounds == if maxToolRounds != 0 then maxToolRounds else if cloud then -1 else 100
  {
    hide Good, TrimSpace;
    var built := BuildRunMessages(messages, newMessages);
    SanitizeGood(messages + newMessages);
    if TooLarge(s, built) {
      var _ := s.Emit(RunError);
      return null;
    }
    var ok, activated := ActivateSkill(s, skill, skillID, skillContent);
    if !ok {
      var _ := s.Emit(RunError);
      return null;
    }
    if |activated| > 0 {
      GoodConcat(built, activated);
      built := built + activated;
      if TooLarge(s, built) {
        var _ := s.Emit(RunError);
        return null;
      }
    }
    s.requests, s.batches := 0, 0;
    st := new RunState(built, ResolvedMaxToolRounds(cloud, maxToolRounds));
  }

  /** finishRun: the outcome is announced, and the history handed back. */
  method FinishRun(s: Session, st: RunState) returns (r: Option<seq<Message>>)
    requires RunInv(s, st) && st.phase == DonePhase
    modifies s`events, s`canceled
    ensures r.Some? ==> r.value == st.messages
    ensures r.Some? && (s.tools.Some? || s.disableTools) ==> WellPaired(r.value)
    ensures r.Some? && st.status.Some? ==> s.events == old(s.events) + [RunFinished(st.status.value)]
  {
    DoneIsPaired(s, st);
    hide WellPaired;
    if st.status.Some? {
      var ok;
      if st.ignoreCanceled {
        ok := s.EmitIgnoringCanceled(RunFinished(st.status.value));
      } else {
        ok := s.Emit(RunFinished(st.status.value));
      }
      if !ok {
        return None;
      }
    }
    return Some(st.messages);
  }

  /** A whole run under a limit. */
  method Run(s: Session, messages: seq<Message>, newMessages: seq<Message>, skill: string, skillID: string,
             skillContent: Option<string>, cloud: bool, maxToolRounds: int) returns (r: Option<seq<Message>>)
    requires Good(messages + newMessages) && CallsNoSummary(s.client)
    requires s.tools.Some? && !s.disableTools && ResolvedMaxToolRounds(cloud, maxToolRounds) >= 0
    modifies s
    ensures r.Some? ==> WellPaired(r.value)
    ensures r.Some? ==> s.batches <= ResolvedMaxToolRounds(cloud, maxToolRounds)
    ensures r.Some? ==> s.requests <= 3 * (ResolvedMaxToolRounds(cloud, maxToolRounds) + 1)
  {
    hide Good, CallsNoSummary, WellPaired, EndsPaired;
    var st := StartRun(s, messages, newMessages, skill, skillID, skillContent, cloud, maxToolRounds);
    if st == null {
      return None;
    }
    var ok := RunLimited(s, st);
    if !ok {
      return None;
    }
    r := FinishRun(s, st);
  }
}
