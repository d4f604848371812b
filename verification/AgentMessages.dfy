/** The transcript an agent run keeps, and what it means for it to be well paired. */
module AgentMessages {
  import opened Text

  datatype Role = System | User | Assistant | Tool | OtherRole(name: string)

  /** A tool call; the arguments are kept as the text they render to. */
  datatype ToolCall = ToolCall(id: string, name: string, args: string)

  datatype Message = Message(
    role: Role, content: string, thinking: string, toolName: string, toolCallID: string, toolCalls: seq<ToolCall>)

  function ToolMessage(name: string, id: string, content: string): Message {
    Message(Tool, content, "", name, id, [])
  }

  predicate MessageEmpty(m: Message) { m.content == "" && m.thinking == "" && m.toolCalls == [] }

  // ----- token estimates

  function RoleName(r: Role): string {
    match r
    case System => "system"
    case User => "user"
    case Assistant => "assistant"
    case Tool => "tool"
    case OtherRole(name) => name
  }

  function CallsTokens(calls: seq<ToolCall>): nat {
    if calls == [] then 0
    else EstimateTokens(calls[0].name) + EstimateTokens(calls[0].args) + CallsTokens(calls[1..])
  }

  function MessageTokens(m: Message): nat {
    EstimateTokens(RoleName(m.role)) + EstimateTokens(m.content) + EstimateTokens(m.thinking)
    + EstimateTokens(m.toolName) + EstimateTokens(m.toolCallID) + CallsTokens(m.toolCalls)
  }

  /** estimateMessagesTokens */
  function MessagesTokens(ms: seq<Message>): nat {
    if ms == [] then 0 else MessagesTokens(ms[..|ms| - 1]) + MessageTokens(ms[|ms| - 1])
  }

  lemma {:induction false} CallsTokensSnoc(calls: seq<ToolCall>, c: ToolCall)
    ensures CallsTokens(calls + [c]) == CallsTokens(calls) + EstimateTokens(c.name) + EstimateTokens(c.args)
  {
    hide EstimateTokens;
    if calls == [] {
      assert calls + [c] == [c] && [c][1..] == [];
    } else {
      CallsTokensSnoc(calls[1..], c);
      assert (calls + [c])[1..] == calls[1..] + [c];
    }
  }

  lemma {:induction false} MessagesTokensConcat(a: seq<Message>, b: seq<Message>)
    ensures MessagesTokens(a + b) == MessagesTokens(a) + MessagesTokens(b)
  {
    hide MessageTokens;
    if b == [] {
      assert a + b == a;
    } else {
      MessagesTokensConcat(a, b[..|b| - 1]);
      assert (a + b)[..|a + b| - 1] == a + b[..|b| - 1];
    }
  }

  /** Every text of a message is paid for once: an empty message costs its role, and each text that is filled in adds
      its own tokens. */
  lemma TokensAddUp(m: Message, text: string, c: ToolCall)
    ensures MessageTokens(Message(m.role, "", "", "", "", [])) == EstimateTokens(RoleName(m.role))
    ensures m.content == "" ==> MessageTokens(m.(content := text)) == MessageTokens(m) + EstimateTokens(text)
    ensures m.thinking == "" ==> MessageTokens(m.(thinking := text)) == MessageTokens(m) + EstimateTokens(text)
    ensures m.toolName == "" ==> MessageTokens(m.(toolName := text)) == MessageTokens(m) + EstimateTokens(text)
    ensures m.toolCallID == "" ==> MessageTokens(m.(toolCallID := text)) == MessageTokens(m) + EstimateTokens(text)
    ensures MessageTokens(m.(toolCalls := m.toolCalls + [c]))
         == MessageTokens(m) + EstimateTokens(c.name) + EstimateTokens(c.args)
  {
    assert EstimateTokens("") == 0;
    hide EstimateTokens, RoleName;
    CallsTokensSnoc(m.toolCalls, c);
  }

  lemma OneMessageTokens(m: Message)
    ensures MessagesTokens([m]) == MessageTokens(m)
  {
    hide MessageTokens;
    assert [m][..0] == [];
  }

  // ----- pairing

  predicate IsCallMessage(m: Message) { m.role == Assistant && m.toolCalls != [] }

  predicate IsAnswer(m: Message, c: ToolCall) { m.role == Tool && m.toolCalls == [] && m.toolCallID == c.id }

  /** Message i answers call i, and nothing else is there. */
  predicate Answers(ms: seq<Message>, calls: seq<ToolCall>) {
    |ms| == |calls| && forall i :: 0 <= i < |calls| ==> IsAnswer(ms[i], calls[i])
  }

  /** A message that neither calls tools nor answers a call. */
  predicate IsPlain(m: Message) { m.role != Tool && m.toolCalls == [] }

  /** Length of the leading group: a message with calls takes its answers with it. */
  function GroupLength(ms: seq<Message>): nat
    requires ms != []
  {
    if IsCallMessage(ms[0]) then 1 + |ms[0].toolCalls| else 1
  }

  predicate GroupPaired(ms: seq<Message>)
    requires ms != []
  {
    if IsCallMessage(ms[0]) then
      GroupLength(ms) <= |ms| && Answers(ms[1..GroupLength(ms)], ms[0].toolCalls)
    else IsPlain(ms[0])
  }

  /** Every message with calls is followed at once by exactly one answer per call, in order, and there are
      no other tool messages. */
  predicate WellPaired(ms: seq<Message>) {
    ms == [] || (GroupLength(ms) <= |ms| && GroupPaired(ms) && WellPaired(ms[GroupLength(ms)..]))
  }

  lemma {:induction false} PairedConcat(a: seq<Message>, b: seq<Message>)
    requires WellPaired(a)
    ensures WellPaired(a + b) <==> WellPaired(b)
  {
    hide IsAnswer, IsPlain, IsCallMessage;
    if a == [] {
      assert a + b == b;
    } else {
      var n := GroupLength(a);
      GroupOfConcat(a, b);
      PairedConcat(a[n..], b);
      assert (a + b)[n..] == a[n..] + b;
    }
  }

  lemma GroupOfConcat(a: seq<Message>, b: seq<Message>)
    requires a != [] && GroupLength(a) <= |a|
    ensures GroupLength(a + b) == GroupLength(a)
    ensures GroupPaired(a + b) == GroupPaired(a)
  {
    hide IsAnswer, IsPlain;
    assert (a + b)[0] == a[0];
    assert (a + b)[1..GroupLength(a)] == a[1..GroupLength(a)];
  }

  lemma PairedPlain(m: Message)
    requires IsPlain(m)
    ensures WellPaired([m])
  {
    assert [m][1..] == [];
  }

  /** A message with calls and its answers are a well-paired piece of history. */
  lemma PairedGroup(m: Message, answers: seq<Message>)
    requires IsCallMessage(m) && Answers(answers, m.toolCalls)
    ensures WellPaired([m] + answers)
  {
    hide IsAnswer;
    var ms := [m] + answers;
    assert ms[1..GroupLength(ms)] == answers && ms[GroupLength(ms)..] == [];
  }

  /** A message with calls and no answers is not. */
  lemma UnansweredNotPaired(ms: seq<Message>, m: Message)
    requires WellPaired(ms) && IsCallMessage(m)
    ensures !WellPaired(ms + [m])
  {
    PairedConcat(ms, [m]);
  }

  lemma GroupNotEmpty(ms: seq<Message>)
    requires ms != []
    ensures GroupLength(ms) > 0
  {}

  lemma FirstGroup(ms: seq<Message>)
    requires WellPaired(ms) && ms != []
    ensures WellPaired(ms[..GroupLength(ms)]) && WellPaired(ms[GroupLength(ms)..])
  {
    hide IsAnswer, IsPlain, Answers;
    var n := GroupLength(ms);
    var g := ms[..n];
    assert g[0] == ms[0] && g[1..n] == ms[1..n];
    assert GroupLength(g) == n && GroupPaired(g);
    hide GroupPaired, GroupLength, IsCallMessage;
    assert g[n..] == [];
  }

  lemma PlainStartsGroup(ms: seq<Message>, i: nat)
    requires WellPaired(ms) && 0 < i < |ms| && IsPlain(ms[i])
    ensures GroupLength(ms) <= i
  {
    if i < GroupLength(ms) { AnswersAreTools(ms, i); }
  }

  lemma AnswersAreTools(ms: seq<Message>, k: nat)
    requires WellPaired(ms) && ms != [] && 1 <= k < GroupLength(ms)
    ensures ms[k].role == Tool
  {
    assert IsAnswer(ms[1..GroupLength(ms)][k - 1], ms[0].toolCalls[k - 1]);
  }

  lemma Shift<T>(s: seq<T>, n: nat, i: nat)
    requires n <= i <= |s|
    ensures s[n..][..i - n] == s[n..i] && s[n..][i - n..] == s[i..] && s[..n] + s[n..i] == s[..i]
  {}

  /** A message that answers nothing and calls nothing splits a well-paired history in two. */
  lemma {:induction false} PairedSplit(ms: seq<Message>, i: nat)
    requires WellPaired(ms) && i < |ms| && IsPlain(ms[i])
    ensures WellPaired(ms[..i]) && WellPaired(ms[i..])
  {
    hide GroupPaired, IsPlain, GroupLength;
    if i == 0 {
      assert ms[..0] == [] && ms[0..] == ms;
    } else {
      var n := GroupLength(ms);
      PlainStartsGroup(ms, i);
      GroupNotEmpty(ms);
      FirstGroup(ms);
      PairedSplit(ms[n..], i - n);
      Shift(ms, n, i);
      PairedConcat(ms[..n], ms[n..i]);
    }
  }
}
