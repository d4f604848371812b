/** agent/compactor.go: one compaction of a history. */
module Compactor {
  import opened Text
  import opened AgentMessages
  import opened ToolBudget
  import opened Compaction
  import opened CompactionSplit

  datatype Option<+T> = None | Some(value: T)

  /** What a request asks for; `moment` stands for the rest of it, such as the latest response. */
  datatype CompactionRequest = CompactionRequest(
    messages: seq<Message>, force: bool, continueTask: bool, keepUserTurns: Option<int>, moment: nat)

  datatype CompactionResult = CompactionResult(
    messages: seq<Message>, compacted: bool, due: bool, summary: string, reason: string)

  const CompactOnlySummaryTokens := 16000

  datatype SummaryReply = Summary(text: string) | SummaryError(message: string)

  /** What is asked of the model: the request, the summary there was, what to archive, and whether it is asked again. */
  datatype SummaryQuery = SummaryQuery(
    req: CompactionRequest, previousSummary: string, archive: seq<Message>, again: bool)

  /** SimpleCompactor. */
  class SimpleCompactor {
    const contextWindow: int
    const configuredKeep: int
    /** The model's answers to summary queries, if there is a client. */
    const client: Option<SummaryQuery -> SummaryReply>
    /** Whether the latest response or the estimate has reached the threshold. */
    const overThreshold: CompactionRequest -> bool

    constructor (contextWindow: int, configuredKeep: int, client: Option<SummaryQuery -> SummaryReply>,
                 overThreshold: CompactionRequest -> bool)
      ensures this.contextWindow == contextWindow && this.configuredKeep == configuredKeep && this.client == client
      ensures this.overThreshold == overThreshold
    {
      this.contextWindow, this.configuredKeep, this.client := contextWindow, configuredKeep, client;
      this.overThreshold := overThreshold;
    }

    /** Small contexts keep no turns; otherwise the configured number, or three. */
    function KeepUserTurns(): nat {
      if 0 < contextWindow < CompactOnlySummaryTokens then 0
      else if configuredKeep > 0 then configuredKeep
      else DefaultKeepUserTurns
    }

    function Keep(req: CompactionRequest): int {
      if req.keepUserTurns.Some? then req.keepUserTurns.value else KeepUserTurns()
    }

    /** ShouldCompact */
    predicate Due(req: CompactionRequest) { req.force || overThreshold(req) }

    /** What a request comes to: nothing unless it is due, there is a client and something to archive. An empty
        summary is asked for once more. */
    ghost predicate Outcome(req: CompactionRequest, split: Split, r: CompactionResult, failed: bool) {
      if !Due(req) then Unchanged(req, r, false, "") && !failed
      else if client.None? then Unchanged(req, r, true, "compaction is unavailable") && !failed
      else if !split.ok then Unchanged(req, r, true, "nothing to compact") && !failed
      else
        var ask := client.value;
        var first := ask(SummaryQuery(req, split.previousSummary, split.archive, false));
        var second := ask(SummaryQuery(req, split.previousSummary, split.archive, true));
        if first.SummaryError? then Unchanged(req, r, true, first.message) && failed
        else if TrimSpace(first.text) != "" then Replaced(req, split, TrimSpace(first.text), r) && !failed
        else if second.SummaryError? then Unchanged(req, r, true, second.message) && failed
        else if TrimSpace(second.text) != "" then Replaced(req, split, TrimSpace(second.text), r) && !failed
        else Unchanged(req, r, true, "summary was empty") && !failed
    }

    /** The history comes back as it was. */
    ghost predicate Unchanged(req: CompactionRequest, r: CompactionResult, due: bool, reason: string) {
      r == CompactionResult(req.messages, false, due, "", reason)
    }

    /** The history is the leading system messages, the summary pair and the turns kept. A long summary is cut after
        16384 runes, and says so. */
    ghost predicate Replaced(req: CompactionRequest, split: Split, text: string, r: CompactionResult) {
      && r.messages == split.prefix + SummaryPair(r.summary, req.continueTask) + split.suffix
      && r.compacted && r.due && r.reason == "" && Trimmed(r.summary) && r.summary != ""
      && if |text| <= 16384 then r.summary == text else text[..16384] < r.summary
    }

    method Summarize(ask: SummaryQuery -> SummaryReply, query: SummaryQuery) returns (reply: SummaryReply)
      ensures reply == match ask(query)
        case Summary(text) => Summary(TruncateSummary(TrimSpace(text)))
        case SummaryError(message) => SummaryError(message)
    {
      hide TruncateSummary, TrimSpace;
      reply := match ask(query)
        case Summary(text) => Summary(TruncateSummary(TrimSpace(text)))
        case SummaryError(message) => SummaryError(message);
    }

    /** SimpleCompactor.MaybeCompact */
    method MaybeCompact(req: CompactionRequest) returns (r: CompactionResult, failed: bool, ghost split: Split)
      ensures IsSplit(req.messages, Keep(req), split) && Outcome(req, split, r, failed)
      ensures Keep(req) == match req.keepUserTurns
        case Some(keep) => keep
        case None => if 0 < contextWindow < 16000 then 0 else if configuredKeep > 0 then configuredKeep else 3
    {
      hide IsSplit, TruncateSummary, TrimSpace, SummaryPair, Trimmed;
      var s := SplitCompactionMessages(req.messages, Keep(req));
      split := s;
      failed := false;
      r := CompactionResult(req.messages, false, Due(req), "", "");
      if !r.due {
        return;
      }
      if client.None? {
        r := r.(reason := "compaction is unavailable");
        return;
      }
      ArchiveOfSplit(req.messages, Keep(req), s);
      if !s.ok || |s.archive| == 0 {
        r := r.(reason := "nothing to compact");
        return;
      }
      var summary := Summarize(client.value, SummaryQuery(req, s.previousSummary, s.archive, false));
      if summary.SummaryError? {
        return r.(reason := summary.message), true, split;
      }
      CleanedSummary(client.value(SummaryQuery(req, s.previousSummary, s.archive, false)));
      if summary.text == "" {
        summary := Summarize(client.value, SummaryQuery(req, s.previousSummary, s.archive, true));
        if summary.SummaryError? {
          return r.(reason := summary.message), true, split;
        }
        CleanedSummary(client.value(SummaryQuery(req, s.previousSummary, s.archive, true)));
      }
      if summary.text == "" {
        r := r.(reason := "summary was empty");
        return;
      }
      r := r.(messages := s.prefix + SummaryPair(summary.text, req.continueTask) + s.suffix, compacted := true,
              summary := summary.text);
    }

    lemma ArchiveOfSplit(ms: seq<Message>, keep: int, split: Split)
      requires IsSplit(ms, keep, split)
      ensures split.ok ==> split.archive != []
    {}

    lemma CleanedSummary(reply: SummaryReply)
      ensures reply.Summary? ==>
        var text := TrimSpace(reply.text);
        var summary := TruncateSummary(text);
        && Trimmed(summary) && (summary == "" <==> text == "")
        && if |text| <= 16384 then summary == text else text[..16384] < summary
    {
      hide TrimSpace, Trimmed, TruncateSummary;
      if reply.Summary? {
        var before, after := TrimSpaceSplits(reply.text);
        TruncatedSummaryTrimmed(TrimSpace(reply.text));
        CutSummary(TrimSpace(reply.text));
      }
    }

    lemma CutSummary(text: string)
      ensures if |text| <= 16384 then TruncateSummary(text) == text else text[..16384] < TruncateSummary(text)
    {
      if |text| > 16384 {
        hide Decimal, TruncHint;
        TruncateKeepsEnds(text, TruncateConfig(MaxSummaryRunes, false, 0, "summary", "", ""));
      }
    }
  }
}
