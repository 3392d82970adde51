/**
 * The structured-synthesis step of the AKS workflow: the record the
 * schema-constrained model call returns, and the evidence text it is given.
 */
module Synthesis {
  import opened Text
  import opened Messages

  datatype SourceReference = SourceReference(title: string, details: string)

  /** The schema-constrained answer: two separately sourced sections, a comparison, forms. */
  datatype DualSourceAnswer = DualSourceAnswer(
    internalExplanation: string,
    internalSources: seq<SourceReference>,
    webExplanation: string,
    webSources: seq<SourceReference>,
    comparison: string,
    itForms: seq<string>)

  /** `str(msg.content)` of every message whose content is truthy, in order. */
  function ContextParts(msgs: seq<Message>): seq<string> {
    if msgs == [] then []
    else
      var m := msgs[|msgs| - 1];
      ContextParts(msgs[..|msgs| - 1]) + (if m.content != "" then [m.content] else [])
  }

  /** `"\n\n".join(context_parts)`: the evidence handed to the synthesis call. */
  function EvidenceContext(msgs: seq<Message>): string {
    Join("\n\n", ContextParts(msgs))
  }

  /** The single instruction the synthesis call receives. */
  function SynthesisMessage(prompt: string, query: string, context: string): string {
    prompt + "\n\nUSER QUERY: " + query + "\n\nINFORMATION GATHERED:\n" + context
      + "\n\nNow create the structured dual-source answer."
  }

  /** The content of the AI message the synthesis node appends. */
  const SynthesisDone: string := "Synthesis complete"

  /** The loop of `synthesis_node` that collects the non-empty contents. */
  method CollectContextParts(msgs: seq<Message>) returns (parts: seq<string>)
    ensures parts == ContextParts(msgs)
    ensures |parts| <= |msgs|
    ensures forall p :: p in parts ==> p != ""
  {
    parts := [];
    for i := 0 to |msgs|
      invariant parts == ContextParts(msgs[..i])
      invariant |parts| <= i
      invariant forall p :: p in parts ==> p != ""
    {
      assert msgs[..i + 1][..i] == msgs[..i];
      if msgs[i].content != "" {
        parts := parts + [msgs[i].content];
      }
    }
    assert msgs[..|msgs|] == msgs;
  }

  lemma {:induction false} ContextPartsConcat(a: seq<Message>, b: seq<Message>)
    ensures ContextParts(a + b) == ContextParts(a) + ContextParts(b)
    decreases |b|
  {
    if b == [] {
      assert a + b == a;
    } else {
      var b' := b[..|b| - 1];
      ContextPartsConcat(a, b');
      assert (a + b)[..|a + b| - 1] == a + b';
    }
  }

  /** Every message with non-empty content contributes its text, and nothing else does. */
  lemma {:induction false} ContextPartsMembers(msgs: seq<Message>)
    ensures forall i :: 0 <= i < |msgs| && msgs[i].content != "" ==> msgs[i].content in ContextParts(msgs)
    ensures forall p :: p in ContextParts(msgs) ==> p != "" && exists i :: 0 <= i < |msgs| && msgs[i].content == p
  {
    if msgs != [] {
      var init := msgs[..|msgs| - 1];
      ContextPartsMembers(init);
      forall p | p in ContextParts(msgs)
        ensures p != "" && exists i :: 0 <= i < |msgs| && msgs[i].content == p
      {
        if p in ContextParts(init) {
          var i :| 0 <= i < |init| && init[i].content == p;
          assert msgs[i].content == p;
        }
      }
    }
  }

  lemma {:induction false} JoinContains(sep: string, parts: seq<string>, k: nat)
    requires k < |parts|
    ensures Contains(Join(sep, parts), parts[k])
  {
    if |parts| == 1 {
      ContainsSelf(parts[0]);
    } else if k == 0 {
      ContainsSelf(parts[0]);
      ContainsInConcat([], parts[0], sep + Join(sep, parts[1..]), parts[0]);
      assert [] + parts[0] + (sep + Join(sep, parts[1..])) == Join(sep, parts);
    } else {
      JoinContains(sep, parts[1..], k - 1);
      ContainsInConcat(parts[0] + sep, Join(sep, parts[1..]), [], parts[k]);
      assert parts[0] + sep + Join(sep, parts[1..]) + [] == Join(sep, parts);
    }
  }

  /** No gathered evidence is lost: every non-empty message content occurs in the context. */
  lemma EvidenceIncludesEveryContent(msgs: seq<Message>, i: nat)
    requires i < |msgs| && msgs[i].content != ""
    ensures Contains(EvidenceContext(msgs), msgs[i].content)
  {
    ContextPartsMembers(msgs);
    var parts := ContextParts(msgs);
    var k :| 0 <= k < |parts| && parts[k] == msgs[i].content;
    JoinContains("\n\n", parts, k);
  }

  /** Messages with empty content leave the evidence unchanged. */
  lemma EmptyContentSkipped(msgs: seq<Message>, m: Message)
    requires m.content == ""
    ensures EvidenceContext(msgs + [m]) == EvidenceContext(msgs)
  {
    assert (msgs + [m])[..|msgs|] == msgs;
    assert ContextParts(msgs + [m]) == ContextParts(msgs);
  }

  /** The synthesis instruction carries both the user query and the whole evidence. */
  lemma SynthesisMessageCarries(prompt: string, query: string, context: string)
    ensures Contains(SynthesisMessage(prompt, query, context), query)
    ensures Contains(SynthesisMessage(prompt, query, context), context)
    ensures prompt <= SynthesisMessage(prompt, query, context)
  {
    var tail := "\n\nNow create the structured dual-source answer.";
    var mid := "\n\nINFORMATION GATHERED:\n";
    ContainsSelf(query);
    ContainsInConcat(prompt + "\n\nUSER QUERY: ", query, mid + context + tail, query);
    assert prompt + "\n\nUSER QUERY: " + query + (mid + context + tail) == SynthesisMessage(prompt, query, context);
    ContainsSelf(context);
    ContainsInConcat(prompt + "\n\nUSER QUERY: " + query + mid, context, tail, context);
    assert prompt + "\n\nUSER QUERY: " + query + mid + context + tail == SynthesisMessage(prompt, query, context);
  }
}
