/** agent/session.go: the session, what it emits, and the parties it asks. */
module SessionState {
  import opened Text
  import opened AgentMessages
  import opened Compactor

  datatype ToolStatus = ToolDone | ToolFailed | ToolDenied | ToolDisabled | ToolSkipped

  datatype RunStatus = RunDone | RunDenied | RunCanceled

  datatype Event =
    | ToolStarted(id: string, name: string)
    | ToolFinished(status: ToolStatus, id: string, name: string, content: string)
    | CompactionStarted | CompactionSkipped(reason: string) | Compacted(messages: seq<Message>, summary: string)
    | ThinkingDelta(text: string) | MessageDelta(text: string) | ToolCallsDetected(calls: seq<ToolCall>)
    | RunFinished(outcome: RunStatus) | RunError

  /** One streamed piece of a model response. */
  datatype Chunk = Chunk(thinking: string, content: string, calls: seq<ToolCall>)

  /** How a chat request ends; status 0 for an error without an HTTP status. */
  datatype ChatEnd = ChatDone | ChatCanceled | ChatFailed(status: nat, message: string)

  datatype Reply = Reply(chunks: seq<Chunk>, end: ChatEnd)

  datatype Approval = ApprovalFailed | Allowed | NotAllowed(reason: string)

  datatype ToolResult = ToolError(message: string) | ToolOutput(content: string)

  class Session {
    const tools: Option<set<string>>
    const disableTools: bool
    const compactor: Option<SimpleCompactor>
    /** The context window and the compaction threshold in tokens; 0 for none. */
    const window: int
    const threshold: int
    /** What the client answers to the n-th request of a run. */
    const client: (nat, seq<Message>) -> Reply
    /** The estimate of a history's size in tokens. */
    const estimate: seq<Message> -> nat
    /** Whether a known tool needs approval for a call, what the user answers, and what the tool returns; each may
        depend on how much has been emitted before. */
    const needsApproval: (nat, ToolCall) -> bool
    const approval: nat -> Approval
    const execute: (nat, ToolCall) -> ToolResult
    /** Everything emitted so far. */
    var events: seq<Event>
    /** The context has been canceled: it stays so. */
    var canceled: bool
    /** Chat requests made and tool batches run. */
    var requests: nat
    var batches: nat

    constructor (tools: Option<set<string>>, disableTools: bool, compactor: Option<SimpleCompactor>,
                 window: int, threshold: int, client: (nat, seq<Message>) -> Reply, estimate: seq<Message> -> nat,
                 needsApproval: (nat, ToolCall) -> bool, approval: nat -> Approval,
                 execute: (nat, ToolCall) -> ToolResult)
      ensures events == [] && requests == 0 && batches == 0
      ensures this.tools == tools && this.disableTools == disableTools && this.compactor == compactor
      ensures this.window == window && this.threshold == threshold && this.client == client
      ensures this.estimate == estimate && this.needsApproval == needsApproval
      ensures this.approval == approval && this.execute == execute
    {
      this.tools, this.disableTools, this.compactor := tools, disableTools, compactor;
      this.window, this.threshold, this.client, this.estimate := window, threshold, client, estimate;
      this.needsApproval, this.approval, this.execute := needsApproval, approval, execute;
      events, canceled, requests, batches := [], false, 0, 0;
    }

    /** The context may be canceled at any moment. */
    method CheckCanceled() returns (now: bool)
      modifies this`canceled
      ensures now == canceled && (old(canceled) ==> canceled)
    {
      var later: bool := *;
      canceled := canceled || later;
      now := canceled;
    }

    /** Every sink gets the event; any of them may fail. */
    method Emit(e: Event) returns (ok: bool)
      modifies this`events, this`canceled
      ensures events == old(events) + [e] && (old(canceled) ==> canceled)
    {
      events := events + [e];
      ok := *;
      var c := CheckCanceled();
    }

    /** A failing sink is ignored once the context is canceled. */
    method EmitIgnoringCanceled(e: Event) returns (ok: bool)
      modifies this`events, this`canceled
      ensures events == old(events) + [e] && (old(canceled) ==> canceled)
      ensures !ok ==> !canceled
    {
      ok := Emit(e);
      if !ok {
        ok := CheckCanceled();
      }
    }

    method Authorize() returns (a: Approval)
      modifies this`canceled
      ensures a == approval(|events|) && (old(canceled) ==> canceled)
    {
      a := approval(|events|);
      var c := CheckCanceled();
    }

    method Execute(call: ToolCall) returns (r: ToolResult)
      modifies this`canceled
      ensures r == execute(|events|, call) && (old(canceled) ==> canceled)
    {
      r := execute(|events|, call);
      var c := CheckCanceled();
    }
  }
}
