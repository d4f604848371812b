/** agent/compactor.go: the summary pair, and splitting a history around it. */
module Compaction {
  import opened Text
  import opened AgentMessages
  import opened ToolBudget

  const SummaryPrefix := "Conversation summary:" + "\n"
  const SummaryName := "summary"
  const SummaryCallID := "ollama_compaction"
  // the first and the last rune stand apart, where the lemmas can read them off
  const ContinueInstruction :=
    "c" + "ontinue the task in progress. the history has been compacted, do not mention compaction to the use" + "r"

  predicate IsSummary(m: Message) {
    && (m.role == User || m.role == System || (m.role == Tool && m.toolName == SummaryName))
    && HasPrefix(m.content, SummaryPrefix)
  }

  predicate NamesSummary(calls: seq<ToolCall>) {
    exists i :: 0 <= i < |calls| && calls[i].name == SummaryName
  }

  predicate IsSummaryCall(m: Message) { m.role == Assistant && NamesSummary(m.toolCalls) }

  // ----- the summary text

  /** compactionSummaryMessageForTask */
  function SummaryContent(summary: string, continueTask: bool): string {
    var content := SummaryPrefix + TrimSpace(summary);
    if continueTask then TrimSpace(content) + "\n\n" + ContinueInstruction else content
  }

  /** CompactionSummaryText */
  function SummaryText(content: string): string {
    TrimSpace(TrimSuffix(TrimSpace(TrimPrefix(content, SummaryPrefix)), ContinueInstruction))
  }

  lemma PrefixShape()
    ensures |SummaryPrefix| == 22 && !IsSpace(SummaryPrefix[0]) && !IsSpace(SummaryPrefix[20])
    ensures SummaryPrefix[21] == '\n' && SummaryPrefix == SummaryPrefix[..21] + "\n"
  {
    assert SummaryPrefix[0] == 'C' && SummaryPrefix[20] == ':' && SummaryPrefix[21] == '\n';
  }

  lemma InstructionShape()
    ensures |ContinueInstruction| == 100 && !IsSpace(ContinueInstruction[0]) && !IsSpace(ContinueInstruction[99])
  {
    assert ContinueInstruction[0] == 'c' && ContinueInstruction[99] == 'r';
  }

  lemma NewlinesAreSpace()
    ensures AllSpace("\n\n") && AllSpace("\n") && AllSpace("")
  {}

  /** The content carries the summary prefix. */
  lemma ContentIsSummary(summary: string, continueTask: bool)
    ensures HasPrefix(SummaryContent(summary, continueTask), SummaryPrefix)
  {
    hide SummaryPrefix, ContinueInstruction, TrimSpace, IsSpace;
    if continueTask {
      var s := TrimSpace(summary);
      ContentShape(summary);
      if s == "" {
        PrefixShape();
        Regroup(SummaryPrefix[..21], "\n", "\n");
        PrefixKept(SummaryPrefix[..21], "\n", "\n", ContinueInstruction);
      } else {
        PrefixKept(SummaryPrefix, s, "\n\n", ContinueInstruction);
      }
    }
  }

  /** A summary's text marks a message as a compaction exactly if the user, the system or the tool named summary says
      it; no other text does. */
  lemma SummariesByRole(m: Message, summary: string, continueTask: bool)
    ensures IsSummary(m.(content := SummaryContent(summary, continueTask))) <==>
      m.role == User || m.role == System || (m.role == Tool && m.toolName == "summary")
    ensures IsSummary(m) ==> "Conversation summary:\n" <= m.content
  {
    hide SummaryContent;
    ContentIsSummary(summary, continueTask);
    assert "Conversation summary:\n" == "Conversation summary:" + "\n";
  }

  lemma PrefixKept(a: string, b: string, c: string, d: string)
    ensures a <= a + b + c + d && a + b <= a + (b + c) + d
  {
    Regroup(a, b, c);
  }

  lemma TrimHeading(head: string, prefix: string, s: string)
    requires prefix == head + "\n" && head != "" && Trimmed(head) && Trimmed(s)
    ensures TrimSpace(prefix + s) == if s == "" then head else prefix + s
  {
    hide IsSpace, TrimSpace, AllSpace;
    NewlinesAreSpace();
    if s == "" {
      assert prefix + s == [] + head + "\n";
      TrimSpaceOf([], head, "\n");
    } else {
      assert (prefix + s)[0] == head[0] && (prefix + s)[|prefix + s| - 1] == s[|s| - 1];
      TrimTrimmed(prefix + s);
    }
  }

  /** With the continuation: only an empty summary loses the prefix's own newline. */
  lemma ContentShape(summary: string)
    ensures var s := TrimSpace(summary);
      TrimSpace(SummaryPrefix + s) == if s == "" then SummaryPrefix[..21] else SummaryPrefix + s
  {
    hide SummaryPrefix, IsSpace, TrimSpace;
    PrefixShape();
    var before, after := TrimSpaceSplits(summary);
    TrimHeading(SummaryPrefix[..21], SummaryPrefix, TrimSpace(summary));
  }

  /** Reading a summary back gives the summary, trimmed, unless it was stored without the continuation
      instruction and happens to end with it. */
  lemma SummaryTextReads(summary: string, continueTask: bool)
    ensures SummaryText(SummaryContent(summary, continueTask)) == TrimSpace(summary)
      <==> continueTask || !HasSuffix(TrimSpace(summary), ContinueInstruction)
  {
    hide SummaryPrefix, ContinueInstruction, IsSpace, TrimSpace, TrimPrefix, TrimSuffix;
    if continueTask {
      ContinuedTextReads(summary);
    } else {
      var before, after := TrimSpaceSplits(summary);
      InstructionShape();
      BareSummaryReads(SummaryPrefix, TrimSpace(summary), ContinueInstruction);
    }
  }

  lemma BareSummaryReads(prefix: string, s: string, last: string)
    requires Trimmed(s) && last != ""
    ensures TrimSpace(TrimSuffix(TrimSpace(TrimPrefix(prefix + s, prefix)), last)) == s <==> !HasSuffix(s, last)
  {
    hide IsSpace, TrimSpace, Trimmed;
    assert TrimPrefix(prefix + s, prefix) == s;
    TrimTrimmed(s);
  }

  lemma ContinuedTextReads(summary: string)
    ensures SummaryText(SummaryContent(summary, true)) == TrimSpace(summary)
  {
    hide SummaryPrefix, ContinueInstruction, IsSpace, TrimSpace, TrimPrefix, TrimSuffix;
    var s := TrimSpace(summary);
    var before, after := TrimSpaceSplits(summary);
    PrefixShape();
    InstructionShape();
    ContentShape(summary);
    if s == "" {
      EmptySummaryReads(SummaryPrefix[..21], SummaryPrefix, ContinueInstruction);
    } else {
      StoredSummaryReads(SummaryPrefix, s, ContinueInstruction);
    }
  }

  lemma EmptySummaryReads(head: string, prefix: string, last: string)
    requires prefix == head + "\n" && last != "" && Trimmed(last)
    ensures TrimSpace(TrimSuffix(TrimSpace(TrimPrefix(head + "\n\n" + last, prefix)), last)) == ""
  {
    hide IsSpace, TrimSpace, Trimmed;
    NewlinesAreSpace();
    assert head + "\n\n" + last == prefix + ("\n" + last);
    assert TrimPrefix(prefix + ("\n" + last), prefix) == "\n" + last + "";
    TrimSpaceOf("\n", last, "");
    assert TrimSuffix(last, last) == "";
    TrimAllSpace("");
  }

  lemma StoredSummaryReads(prefix: string, s: string, last: string)
    requires s != "" && Trimmed(s) && last != "" && Trimmed(last)
    ensures TrimSpace(TrimSuffix(TrimSpace(TrimPrefix(prefix + s + "\n\n" + last, prefix)), last)) == s
  {
    hide IsSpace, TrimSpace, AllSpace;
    NewlinesAreSpace();
    var rest := s + "\n\n" + last;
    Regroup(prefix, s, "\n\n");
    Regroup(prefix, s + "\n\n", last);
    assert TrimPrefix(prefix + rest, prefix) == rest;
    assert rest[0] == s[0] && rest[|rest| - 1] == last[|last| - 1];
    TrimTrimmed(rest);
    assert TrimSuffix(rest, last) == s + "\n\n";
    assert [] + s == s && AllSpace([]);
    TrimSpaceOf([], s, "\n\n");
  }

  // ----- the summary pair

  /** CompactionSummaryMessages */
  function SummaryPair(summary: string, continueTask: bool): (ms: seq<Message>)
    ensures |ms| == 2
  {
    [Message(Assistant, "", "", "", "", [ToolCall(SummaryCallID, SummaryName, "")]),
     ToolMessage(SummaryName, SummaryCallID, SummaryContent(summary, continueTask))]
  }

  lemma PairIsRecognised(summary: string, continueTask: bool)
    ensures IsSummaryCall(SummaryPair(summary, continueTask)[0])
    ensures IsSummary(SummaryPair(summary, continueTask)[1])
    ensures WellPaired(SummaryPair(summary, continueTask))
  {
    hide SummaryContent, SummaryPrefix;
    ContentIsSummary(summary, continueTask);
    var pair := SummaryPair(summary, continueTask);
    assert pair[0].toolCalls[0].name == SummaryName;
    PairedGroup(pair[0], [pair[1]]);
    assert pair == [pair[0]] + [pair[1]];
  }

  const MaxSummaryRunes := 16384

  /** truncateCompactionSummary */
  function TruncateSummary(summary: string): string {
    Truncate(summary, TruncateConfig(MaxSummaryRunes, false, 0, "summary", "", ""))
  }

  /** A trimmed summary stays trimmed when it is cut, and does not become empty. */
  lemma TruncatedSummaryTrimmed(summary: string)
    requires Trimmed(summary)
    ensures Trimmed(TruncateSummary(summary))
    ensures TruncateSummary(summary) == "" <==> summary == ""
  {
    if MaxSummaryRunes < |summary| {
      hide Decimal, TruncHint, IsSpace;
      assert !IsSpace(']') by { BracketIsNoSpace(); }
      var r := TruncateSummary(summary);
      TruncateKeepsEnds(summary, TruncateConfig(MaxSummaryRunes, false, 0, "summary", "", ""));
      assert r[0] == summary[..MaxSummaryRunes][0];
    }
  }

  lemma BracketIsNoSpace()
    ensures !IsSpace(']')
  {}
}
