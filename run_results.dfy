/**
 * What every `run_*` entry point extracts from the finished message list: the
 * tool trace, the token total and the final natural-language answer.
 *
 * The token sum comes in two variants. The guarded one adds an AI message's
 * `total_tokens` only when its `usage_metadata` is truthy (AKS, AskMe, policy,
 * video). The unguarded one (colleague, image analysis) calls `.get` on the
 * `usage_metadata` of every message that has the attribute, so an AI message
 * whose metadata is None raises; that outcome is `None` here.
 */
module RunResults {
  import opened Wrappers
  import opened Seqs
  import opened Messages
  import opened AgentLoop

  /** One entry of the returned `tool_calls` list: `{"tool": name, "args": args}`. */
  datatype TraceEntry = TraceEntry(tool: string, args: string)

  /** The token count and the tool trace of one scan over the messages. */
  datatype Scan = Scan(trace: seq<TraceEntry>, tokens: nat)

  function Entry(tc: ToolCall): TraceEntry {
    TraceEntry(tc.name, tc.args)
  }

  function CallEntries(calls: seq<ToolCall>): (es: seq<TraceEntry>)
    ensures |es| == |calls|
  {
    if calls == [] then [] else CallEntries(calls[..|calls| - 1]) + [Entry(calls[|calls| - 1])]
  }

  /** Each call becomes the entry at its own position. */
  lemma {:induction false} CallEntriesAt(calls: seq<ToolCall>, j: nat)
    requires j < |calls|
    ensures CallEntries(calls)[j] == Entry(calls[j])
  {
    if j < |calls| - 1 {
      CallEntriesAt(calls[..|calls| - 1], j);
    }
  }

  /** The entries one message contributes: its tool calls if it is an AI message. */
  function MessageEntries(m: Message): seq<TraceEntry> {
    CallEntries(ToolCallsOf(m))
  }

  /** Every requested tool call, in message order and, within a message, in call order. */
  function Trace(msgs: seq<Message>): seq<TraceEntry> {
    FlatMap(msgs, MessageEntries)
  }

  /** `usage_metadata.get("total_tokens", 0)`. */
  function TotalTokens(u: UsageMetadata): nat {
    if "total_tokens" in u then u["total_tokens"] else 0
  }

  /** What the guarded loop adds for one message. */
  function GuardedContribution(m: Message): nat {
    if m.AI? && m.usage.Some? && |m.usage.value| > 0 then TotalTokens(m.usage.value) else 0
  }

  function GuardedTokens(msgs: seq<Message>): nat {
    if msgs == [] then 0
    else GuardedTokens(msgs[..|msgs| - 1]) + GuardedContribution(Last(msgs))
  }

  /** The unguarded sum; `None` when the loop reaches an AI message without metadata. */
  function UnguardedTokens(msgs: seq<Message>): Option<nat> {
    if msgs == [] then Some(0)
    else
      match UnguardedTokens(msgs[..|msgs| - 1])
      case None => None
      case Some(t) =>
        var m := Last(msgs);
        if !m.AI? then Some(t)
        else if m.usage.None? then None
        else Some(t + TotalTokens(m.usage.value))
  }

  /** The position of the last AI message that requests no tool, if any. */
  function LastReplyIndex(msgs: seq<Message>): (r: Option<nat>)
    ensures r.Some? ==> r.value < |msgs| && IsToolFreeReply(msgs[r.value])
    ensures r.Some? ==> forall j :: r.value < j < |msgs| ==> !IsToolFreeReply(msgs[j])
    ensures r.None? ==> forall j :: 0 <= j < |msgs| ==> !IsToolFreeReply(msgs[j])
  {
    if msgs == [] then None
    else if IsToolFreeReply(Last(msgs)) then Some(|msgs| - 1)
    else LastReplyIndex(msgs[..|msgs| - 1])
  }

  /** The content of the last tool-free AI message, or "" when there is none. */
  function FinalAnswer(msgs: seq<Message>): string {
    match LastReplyIndex(msgs)
    case Some(i) => msgs[i].content
    case None => ""
  }

  /** The inner loop over one message's tool calls. */
  method AppendCalls(trace: seq<TraceEntry>, calls: seq<ToolCall>) returns (t: seq<TraceEntry>)
    ensures t == trace + CallEntries(calls)
  {
    t := trace;
    for j := 0 to |calls|
      invariant t == trace + CallEntries(calls[..j])
    {
      assert calls[..j + 1][..j] == calls[..j];
      t := t + [Entry(calls[j])];
    }
    assert calls[..|calls|] == calls;
  }

  lemma TracePrefix(msgs: seq<Message>, i: nat)
    requires i < |msgs|
    ensures Trace(msgs[..i + 1]) == Trace(msgs[..i]) + CallEntries(ToolCallsOf(msgs[i]))
  {
    FlatMapPrefix(msgs, i, MessageEntries);
  }

  lemma GuardedPrefix(msgs: seq<Message>, i: nat)
    requires i < |msgs|
    ensures GuardedTokens(msgs[..i + 1]) == GuardedTokens(msgs[..i]) + GuardedContribution(msgs[i])
  {
    assert msgs[..i + 1][..i] == msgs[..i];
  }

  lemma UnguardedPrefix(msgs: seq<Message>, i: nat, t: nat)
    requires i < |msgs| && UnguardedTokens(msgs[..i]) == Some(t)
    ensures !msgs[i].AI? ==> UnguardedTokens(msgs[..i + 1]) == Some(t)
    ensures msgs[i].AI? && msgs[i].usage.None? ==> UnguardedTokens(msgs[..i + 1]) == None
    ensures msgs[i].AI? && msgs[i].usage.Some? ==>
      UnguardedTokens(msgs[..i + 1]) == Some(t + TotalTokens(msgs[i].usage.value))
  {
    assert msgs[..i + 1][..i] == msgs[..i];
  }

  /** The scan every `run_*` performs over the finished messages. */
  method ScanMessages(msgs: seq<Message>, guarded: bool) returns (r: Option<Scan>)
    ensures guarded ==> r == Some(Scan(Trace(msgs), GuardedTokens(msgs)))
    ensures !guarded ==> r.Some? == UnguardedTokens(msgs).Some?
    ensures !guarded && r.Some? ==> r.value == Scan(Trace(msgs), UnguardedTokens(msgs).value)
  {
    var trace: seq<TraceEntry> := [];
    var total: nat := 0;
    for i := 0 to |msgs|
      invariant trace == Trace(msgs[..i])
      invariant guarded ==> total == GuardedTokens(msgs[..i])
      invariant !guarded ==> UnguardedTokens(msgs[..i]) == Some(total)
    {
      var m := msgs[i];
      assert Trace(msgs[..i + 1]) == trace + CallEntries(ToolCallsOf(m)) by {
        TracePrefix(msgs, i);
      }
      trace := AppendCalls(trace, ToolCallsOf(m));
      if guarded {
        assert GuardedTokens(msgs[..i + 1]) == total + GuardedContribution(m) by {
          GuardedPrefix(msgs, i);
        }
        if m.AI? && m.usage.Some? && |m.usage.value| > 0 {
          total := total + TotalTokens(m.usage.value);
        }
      } else {
        UnguardedPrefix(msgs, i, total);
        if m.AI? {
          if m.usage.None? {
            UnguardedAbsorbs(msgs[..i + 1], msgs[i + 1..]);
            assert msgs[..i + 1] + msgs[i + 1..] == msgs;
            return None;
          }
          total := total + TotalTokens(m.usage.value);
        }
      }
    }
    assert msgs[..|msgs|] == msgs;
    r := Some(Scan(trace, total));
  }

  /** The reverse scan for the answer: the first tool-free AI message from the end. */
  method FindFinalAnswer(msgs: seq<Message>) returns (answer: string)
    ensures answer == FinalAnswer(msgs)
  {
    answer := "";
    var i := |msgs|;
    while i > 0
      invariant 0 <= i <= |msgs|
      invariant LastReplyIndex(msgs) == LastReplyIndex(msgs[..i])
      invariant answer == ""
    {
      assert msgs[..i][..i - 1] == msgs[..i - 1];
      var m := msgs[i - 1];
      if m.AI? && |m.toolCalls| == 0 {
        answer := m.content;
        return;
      }
      i := i - 1;
    }
  }

  /** Once the unguarded loop has raised, later messages do not matter. */
  lemma {:induction false} UnguardedAbsorbs(a: seq<Message>, b: seq<Message>)
    requires UnguardedTokens(a).None?
    ensures UnguardedTokens(a + b).None?
    decreases |b|
  {
    if b == [] {
      assert a + b == a;
    } else {
      UnguardedAbsorbs(a, b[..|b| - 1]);
      assert (a + b)[..|a + b| - 1] == a + b[..|b| - 1];
    }
  }

  /** The trace of a concatenation is the concatenation of the traces. */
  lemma TraceConcat(a: seq<Message>, b: seq<Message>)
    ensures Trace(a + b) == Trace(a) + Trace(b)
  {
    FlatMapConcat(a, b, MessageEntries);
  }

  /** Every trace entry is a call some AI message requested, and every such call is traced. */
  lemma TraceMembers(msgs: seq<Message>)
    ensures forall e :: e in Trace(msgs) ==>
      exists i, j :: 0 <= i < |msgs| && msgs[i].AI? && 0 <= j < |msgs[i].toolCalls| && e == Entry(msgs[i].toolCalls[j])
    ensures forall i, j :: 0 <= i < |msgs| && msgs[i].AI? && 0 <= j < |msgs[i].toolCalls| ==>
      Entry(msgs[i].toolCalls[j]) in Trace(msgs)
  {
    forall e | e in Trace(msgs)
      ensures exists i, j :: 0 <= i < |msgs| && msgs[i].AI? && 0 <= j < |msgs[i].toolCalls| && e == Entry(msgs[i].toolCalls[j])
    {
      FlatMapMembers(msgs, MessageEntries, e);
      var i :| 0 <= i < |msgs| && e in MessageEntries(msgs[i]);
      var es := MessageEntries(msgs[i]);
      var j :| 0 <= j < |es| && es[j] == e;
      CallEntriesAt(ToolCallsOf(msgs[i]), j);
    }
    forall i, j | 0 <= i < |msgs| && msgs[i].AI? && 0 <= j < |msgs[i].toolCalls|
      ensures Entry(msgs[i].toolCalls[j]) in Trace(msgs)
    {
      CallEntriesAt(ToolCallsOf(msgs[i]), j);
      assert MessageEntries(msgs[i])[j] == Entry(msgs[i].toolCalls[j]);
      FlatMapMembers(msgs, MessageEntries, Entry(msgs[i].toolCalls[j]));
    }
  }

  /** The unguarded sum is defined exactly when every AI message carries metadata. */
  lemma {:induction false} UnguardedDefinedIff(msgs: seq<Message>)
    ensures UnguardedTokens(msgs).Some? <==> forall i :: 0 <= i < |msgs| && msgs[i].AI? ==> msgs[i].usage.Some?
  {
    if msgs != [] {
      var init := msgs[..|msgs| - 1];
      UnguardedDefinedIff(init);
      if UnguardedTokens(msgs).Some? {
        forall i | 0 <= i < |msgs| && msgs[i].AI? ensures msgs[i].usage.Some? {
          if i < |init| {
            assert init[i] == msgs[i];
          }
        }
      } else if UnguardedTokens(init).None? {
        var i :| 0 <= i < |init| && init[i].AI? && init[i].usage.None?;
        assert msgs[i] == init[i];
      }
    }
  }

  /** Where the unguarded loop does not raise, both loops count the same tokens. */
  lemma {:induction false} UnguardedAgreesWithGuarded(msgs: seq<Message>)
    requires UnguardedTokens(msgs).Some?
    ensures UnguardedTokens(msgs).value == GuardedTokens(msgs)
  {
    if msgs != [] {
      UnguardedAgreesWithGuarded(msgs[..|msgs| - 1]);
    }
  }

  /** The token total is additive over concatenation. */
  lemma {:induction false} GuardedTokensConcat(a: seq<Message>, b: seq<Message>)
    ensures GuardedTokens(a + b) == GuardedTokens(a) + GuardedTokens(b)
    decreases |b|
  {
    if b == [] {
      assert a + b == a;
    } else {
      GuardedTokensConcat(a, b[..|b| - 1]);
      assert (a + b)[..|a + b| - 1] == a + b[..|b| - 1];
    }
  }

  /** Human, system and tool messages, and AI messages without metadata, add no tokens. */
  lemma {:induction false} GuardedTokensIgnoresNonUsage(msgs: seq<Message>)
    requires forall i :: 0 <= i < |msgs| ==> !msgs[i].AI? || msgs[i].usage.None?
    ensures GuardedTokens(msgs) == 0
  {
    if msgs != [] {
      GuardedTokensIgnoresNonUsage(msgs[..|msgs| - 1]);
    }
  }

  /** When a plain workflow finishes, its answer is the content of the reply that ended it. */
  lemma FinishedRunAnswer(w: Workflow, o: Oracles, query: string, first: string, fuel: nat)
    requires w.synthesisPrompt.None?
    requires Invoke(w, o, Start(query, first), fuel).node == EndNode
    ensures var msgs := Invoke(w, o, Start(query, first), fuel).messages;
      FinalAnswer(msgs) == Last(msgs).content
  {
    RunShape(w, o, query, first, fuel);
  }

  /** Why a run produced no result dictionary. */
  datatype RunError =
    | OutOfFuel      // the model's step bound was reached before the end node
    | MissingUsage   // the unguarded token loop met an AI message whose metadata is None

  /** The dictionary a plain `run_*` returns. */
  datatype RunOutput = RunOutput(answer: string, toolCalls: seq<TraceEntry>, tokensUsed: nat, fullTrace: seq<Message>)

  /** What a `run_*` reports for the final state `c` of its graph. */
  ghost predicate Reported(c: Config, guarded: bool, r: Result<RunOutput, RunError>) {
    if c.node != EndNode then r == Failure(OutOfFuel)
    else if !guarded && exists i :: 0 <= i < |c.messages| && c.messages[i].AI? && c.messages[i].usage.None? then
      r == Failure(MissingUsage)
    else
      r == Success(RunOutput(FinalAnswer(c.messages), Trace(c.messages), GuardedTokens(c.messages), c.messages))
  }

  /**
   * The shared body of the plain `run_*` functions: invoke the graph on one human
   * message, scan the messages, and take the answer from the closing reply.
   */
  method RunPlainWorkflow(w: Workflow, o: Oracles, query: string, first: string, fuel: nat, guarded: bool)
    returns (r: Result<RunOutput, RunError>)
    requires w.synthesisPrompt.None?
    ensures Reported(Invoke(w, o, Start(query, first), fuel), guarded, r)
    ensures guarded ==> r != Failure(MissingUsage)
    ensures r.Success? ==> r.value.fullTrace[0] == Human(first)
    ensures r.Success? ==> IsToolFreeReply(Last(r.value.fullTrace)) && r.value.answer == Last(r.value.fullTrace).content
  {
    var c := Invoke(w, o, Start(query, first), fuel);
    RunShape(w, o, query, first, fuel);
    if c.node != EndNode {
      return Failure(OutOfFuel);
    }
    UnguardedDefinedIff(c.messages);
    var scan := ScanMessages(c.messages, guarded);
    if scan.None? {
      return Failure(MissingUsage);
    }
    if !guarded {
      UnguardedAgreesWithGuarded(c.messages);
    }
    var answer := FindFinalAnswer(c.messages);
    FinishedRunAnswer(w, o, query, first, fuel);
    r := Success(RunOutput(answer, scan.value.trace, scan.value.tokens, c.messages));
  }
}
