/** A converter fed a whole stream: the stream laws, for the code that runs. */
module StreamConversion {
  import opened AnthropicStream
  import opened StreamGrammar
  import opened StreamContent
  import opened StreamRefinement

  /** The events follow the grammar: none is ever refused, and a stream that is done ends complete. */
  predicate Grammatical(es: seq<StreamEvent>, done: bool) {
    var p := AcceptAll(Fresh, es);
    if done then p == Ended else p.Fresh? || p.Between? || p.Inside?
  }

  /** All text in order, a prefix of the thinking, and each ID of a call that marshals once. */
  ghost predicate Carries(es: seq<StreamEvent>, rs: seq<Response>, marshal: string -> Option<string>) {
    && SentText(es) == AllText(rs) && SentThinking(es) <= AllThinking(rs) && Distinct(SentIds(es))
    && forall id :: id in SentIds(es) <==> Sendable(AllCalls(rs), marshal, id)
  }

  /** Put back together, the events are the one-shot response to everything said. */
  ghost predicate IsOneShot(es: seq<StreamEvent>, rs: seq<Response>, marshal: string -> Option<string>) {
    && Marshals(AllCalls(rs), marshal)
    && FoldAll([], es) == ContentBlocks(AllThinking(rs), AllText(rs), WithJson(AllCalls(rs), marshal))
  }

  /** The stream has its last chunk. */
  predicate IsDone(rs: seq<Response>) { rs != [] && rs[|rs| - 1].done }

  /** The closing events carry the one-shot response's stop reason and usage. */
  predicate EndsAsOneShot(es: seq<StreamEvent>, rs: seq<Response>) {
    && rs != [] && |es| >= 2 && es[|es| - 1] == MessageStop
    && es[|es| - 2] == MessageDelta(MapStopReason(rs[|rs| - 1].doneReason, |AllCalls(rs)| > 0),
                                    UsageFromMetrics(rs[|rs| - 1].metrics))
  }

  /** The first event announces the prompt's tokens. */
  predicate OpensWell(es: seq<StreamEvent>, first: Response, estimated: int) {
    es != [] && es[0].MessageStart? && Opens(es[0].usage, first.metrics, estimated)
  }

  /** The closing events give the reason the stream stopped, and account for its tokens. */
  predicate ClosesWell(es: seq<StreamEvent>, last: Response) {
    && |es| >= 2 && es[|es| - 1] == MessageStop && es[|es| - 2].MessageDelta?
    && Accounts(es[|es| - 2].usage, last.metrics)
    && var stop := es[|es| - 2].stopReason;
       if SentIds(es) != [] then stop == "tool_use"
       else if last.doneReason == "stop" then stop == "end_turn"
       else if last.doneReason == "length" then stop == "max_tokens"
       else if last.doneReason == "" then stop == ""
       else stop == "stop_sequence"
  }

  ghost function Events(estimated: int, rs: seq<Response>, marshal: string -> Option<string>): seq<StreamEvent> {
    Stream(NewConv(estimated), rs, marshal).1
  }

  lemma StreamGrammatical(estimated: int, rs: seq<Response>, marshal: string -> Option<string>)
    requires DoneLast(rs)
    ensures Grammatical(Events(estimated, rs, marshal), IsDone(rs))
  {
    hide Stream, AcceptAll, DoneLast, Ready;
    StreamAccepted(estimated, rs, marshal);
  }

  lemma StreamCarries(estimated: int, rs: seq<Response>, marshal: string -> Option<string>)
    ensures Carries(Events(estimated, rs, marshal), rs, marshal)
  {
    hide Stream, Sendable, SentText, SentThinking, SentIds, AllCalls, AllText, AllThinking, Distinct;
    StreamSends(estimated, rs, marshal);
  }

  lemma StreamIsOneShot(estimated: int, rs: seq<Response>, marshal: string -> Option<string>)
    requires AllMarshal(rs, marshal)
    ensures IsOneShot(Events(estimated, rs, marshal), rs, marshal) <==> InOrder(rs) && DistinctIds(AllCalls(rs))
    ensures IsDone(rs) ==> EndsAsOneShot(Events(estimated, rs, marshal), rs)
  {
    hide Stream, FoldAll, ContentBlocks, InOrder, DistinctIds, AllMarshal, Marshals, AllCalls, AllText, AllThinking,
      WithJson, MapStopReason, UsageFromMetrics;
    StreamRefinesOneShot(estimated, rs, marshal);
    if IsDone(rs) { StreamEndsAsOneShot(estimated, rs, marshal); }
  }

  lemma StreamCloses(estimated: int, rs: seq<Response>, marshal: string -> Option<string>)
    requires IsDone(rs)
    ensures ClosesWell(Events(estimated, rs, marshal), rs[|rs| - 1])
  {
    hide Sendable, SentText, SentThinking, SentIds, AllText, AllThinking, UsageFromMetrics, MapStopReason, Step, Stream,
      Accounts, ClosesWell, Remembered;
    var last := rs[|rs| - 1];
    var (c1, e1) := Stream(NewConv(estimated), rs[..|rs| - 1], marshal);
    var (c2, e2) := Step(c1, last, marshal);
    StreamSends(estimated, rs, marshal);
    StreamSnoc(estimated, rs, marshal);
    EndOfChunk(c1, last, marshal);
    SentAny(SentIds(e1 + e2), c2.sent);
    var es := e1 + e2;
    assert es[|es| - 1] == e2[|e2| - 1] && es[|es| - 2] == e2[|e2| - 2];
    Closed(es, last);
  }

  lemma Closed(es: seq<StreamEvent>, last: Response)
    requires |es| >= 2 && es[|es| - 1] == MessageStop
    requires es[|es| - 2] == MessageDelta(MapStopReason(last.doneReason, SentIds(es) != []),
                                          UsageFromMetrics(last.metrics))
    ensures ClosesWell(es, last)
  {
    hide SentIds, UsageFromMetrics, Accounts;
    UsageAccounts(last.metrics);
  }

  lemma SentAny(ids: seq<string>, sent: set<string>)
    requires Remembered(ids, sent)
    ensures |sent| > 0 <==> ids != []
  {
    if ids != [] { assert ids[0] in sent; }
    if |sent| > 0 {
      var id :| id in sent;
      assert id in ids;
    }
  }

  lemma {:induction false} StreamOpens(estimated: int, rs: seq<Response>, marshal: string -> Option<string>)
    requires rs != []
    ensures OpensWell(Events(estimated, rs, marshal), rs[0], estimated)
    ensures !Stream(NewConv(estimated), rs, marshal).0.firstWrite
  {
    var init, last := rs[..|rs| - 1], rs[|rs| - 1];
    var (c1, e1) := Stream(NewConv(estimated), init, marshal);
    StreamSnoc(estimated, rs, marshal);
    if init == [] {
      FirstChunk(NewConv(estimated), last, marshal);
      assert [] + Step(c1, last, marshal).1 == Step(c1, last, marshal).1;
    } else {
      StreamOpens(estimated, init, marshal);
      FirstChunk(c1, last, marshal);
    }
  }

  /** The first chunk, and only the first, opens the stream. */
  lemma FirstChunk(c: Conv, r: Response, marshal: string -> Option<string>)
    ensures !Step(c, r, marshal).0.firstWrite
    ensures c.firstWrite ==> OpensWell(Step(c, r, marshal).1, r, c.estimated)
  {
    var (c1, e1) := BeginStep(c, r.metrics);
    if c.firstWrite { BeginOpens(c, r.metrics); }
    assert !c1.firstWrite;
    hide BeginStep, ThinkingStep, TextStep, ToolSteps, DoneStep, Opens;
    var (c2, e2) := ThinkingStep(c1, r.thinking);
    var (c3, e3) := TextStep(c2, r.content);
    var (c4, e4) := ToolSteps(c3, r.calls, marshal);
    ThinkingKeepsOpened(c1, r.thinking);
    TextKeepsOpened(c2, r.content);
    ToolsKeepOpened(c3, r.calls, marshal);
    DoneKeepsOpened(c4, r);
  }

  lemma BeginOpens(c: Conv, m: Metrics)
    requires c.firstWrite
    ensures Opens(StartUsage(c, m), m, c.estimated) && BeginStep(c, m).1 == [MessageStart(StartUsage(c, m))]
  {}

  lemma ThinkingKeepsOpened(c: Conv, thinking: string)
    ensures ThinkingStep(c, thinking).0.firstWrite == c.firstWrite
  {}

  lemma TextKeepsOpened(c: Conv, content: string)
    ensures TextStep(c, content).0.firstWrite == c.firstWrite
  {}

  lemma DoneKeepsOpened(c: Conv, r: Response)
    ensures DoneStep(c, r).0.firstWrite == c.firstWrite
  {
    hide MapStopReason, UsageFromMetrics;
  }

  lemma {:induction false} ToolsKeepOpened(c: Conv, calls: seq<ToolCall>, marshal: string -> Option<string>)
    ensures ToolSteps(c, calls, marshal).0.firstWrite == c.firstWrite
  {
    if calls != [] {
      ToolsKeepOpened(c, calls[..|calls| - 1], marshal);
      ToolKeepsOpened(ToolSteps(c, calls[..|calls| - 1], marshal).0, calls[|calls| - 1], marshal);
      hide ToolStep;
    }
  }

  lemma ToolKeepsOpened(c: Conv, call: ToolCall, marshal: string -> Option<string>)
    ensures ToolStep(c, call, marshal).0.firstWrite == c.firstWrite
  {}

  /** Every stream the converter produces obeys all the laws. */
  method ConvertAll(estimatedInputTokens: int, rs: seq<Response>, marshal: string -> Option<string>)
    returns (events: seq<StreamEvent>)
    ensures DoneLast(rs) ==> Grammatical(events, IsDone(rs))
    ensures Carries(events, rs, marshal)
    ensures AllMarshal(rs, marshal) ==> (IsOneShot(events, rs, marshal) <==> InOrder(rs) && DistinctIds(AllCalls(rs)))
    ensures AllMarshal(rs, marshal) && IsDone(rs) ==> EndsAsOneShot(events, rs)
    ensures rs != [] ==> OpensWell(events, rs[0], estimatedInputTokens)
    ensures IsDone(rs) ==> ClosesWell(events, rs[|rs| - 1])
  {
    hide Step, Marshals, Grammatical, Carries, IsOneShot, EndsAsOneShot, AllMarshal, InOrder, DistinctIds,
      DoneLast, AllCalls, OpensWell, ClosesWell;
    var converter := new StreamConverter(estimatedInputTokens);
    events := [];
    for i := 0 to |rs|
      invariant (converter.State(), events) == Stream(NewConv(estimatedInputTokens), rs[..i], marshal)
    {
      assert rs[..i + 1][..i] == rs[..i];
      var more := converter.Process(rs[i], marshal);
      events := events + more;
    }
    assert rs[..|rs|] == rs;
    assert events == Events(estimatedInputTokens, rs, marshal);
    hide Stream, Events;
    if DoneLast(rs) { StreamGrammatical(estimatedInputTokens, rs, marshal); }
    StreamCarries(estimatedInputTokens, rs, marshal);
    if rs != [] { StreamOpens(estimatedInputTokens, rs, marshal); }
    if IsDone(rs) { StreamCloses(estimatedInputTokens, rs, marshal); }
    if AllMarshal(rs, marshal) { StreamIsOneShot(estimatedInputTokens, rs, marshal); }
  }
}
