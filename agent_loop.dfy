/**
 * The two-node agent graph that all six workflows compile: an agent node calls
 * the tool-bound model on the message list, a conditional edge sends control to
 * the tools node when the reply requests tools, and the tools node always hands
 * control back to the agent. Without tool calls the run ends, or, in the
 * structured-synthesis variant, goes once through a synthesis node and then ends.
 *
 * The state's message list has the `operator.add` reducer: every node returns
 * the messages to append. The model, the tool executor and the schema-constrained
 * model are oracles (total functions of what they are given). The graph runtime
 * sets no step limit in the workflows; `fuel` below is a bound of this model only,
 * needed for termination, and a run that uses it up simply stops where it is.
 */
module AgentLoop {
  import opened Wrappers
  import opened Messages
  import opened Synthesis

  /** What one call of the tool-bound model returns. */
  datatype Reply = Reply(content: string, toolCalls: seq<ToolCall>, usage: Option<UsageMetadata>)

  /**
   * The model, the executor of one tool call (the content of the tool message it
   * yields) and the schema-constrained model, which may return no answer.
   */
  datatype Oracles = Oracles(
    model: seq<Message> -> Reply,
    tools: ToolCall -> string,
    synth: string -> Option<DualSourceAnswer>)

  /**
   * What distinguishes the six graphs: the system prompt put in front of the
   * first model call (none for image analysis) and, for AKS only, the prompt of
   * the structured-synthesis step.
   */
  datatype Workflow = Workflow(systemPrompt: Option<string>, synthesisPrompt: Option<string>)

  datatype Node = AgentNode | ToolsNode | SynthesizeNode | EndNode

  datatype Config = Config(
    node: Node,
    messages: seq<Message>,
    query: string,
    structured: Option<DualSourceAnswer>)

  function ReplyMessage(r: Reply): Message {
    AI(r.content, r.toolCalls, r.usage)
  }

  /** What the tools node appends: the results of the requested calls, in call order. */
  function ToolMessages(calls: seq<ToolCall>, run: ToolCall -> string): seq<Message> {
    seq(|calls|, i requires 0 <= i < |calls| => Tool(run(calls[i]), calls[i].name))
  }

  /** The schema-constrained call of the synthesis node on the evidence gathered so far. */
  function SynthesisCall(w: Workflow, o: Oracles, query: string, msgs: seq<Message>): Option<DualSourceAnswer> {
    o.synth(SynthesisMessage(w.synthesisPrompt.GetOr(""), query, EvidenceContext(msgs)))
  }

  /** The messages the agent node sends to the model; this list is never stored. */
  function ModelInput(w: Workflow, msgs: seq<Message>): seq<Message> {
    if |msgs| == 1 && w.systemPrompt.Some? then [System(w.systemPrompt.value)] + msgs else msgs
  }

  /** The conditional edge out of the agent node. */
  function RouteAfterAgent(w: Workflow, msgs: seq<Message>): Node
    requires |msgs| > 0
  {
    if HasToolCalls(Last(msgs)) then ToolsNode
    else if w.synthesisPrompt.Some? then SynthesizeNode
    else EndNode
  }

  /** Runs the current node, applies the `operator.add` reducer and follows the edge out. */
  function Step(w: Workflow, o: Oracles, c: Config): (r: Config)
    requires |c.messages| > 0
    ensures c.messages <= r.messages && r.query == c.query
  {
    match c.node
    case AgentNode =>
      var msgs := c.messages + [ReplyMessage(o.model(ModelInput(w, c.messages)))];
      c.(node := RouteAfterAgent(w, msgs), messages := msgs)
    case ToolsNode =>
      c.(node := AgentNode, messages := c.messages + ToolMessages(ToolCallsOf(Last(c.messages)), o.tools))
    case SynthesizeNode =>
      var answer := SynthesisCall(w, o, c.query, c.messages);
      c.(node := EndNode, messages := c.messages + [AI(SynthesisDone, [], None)], structured := answer)
    case EndNode => c
  }

  /** `agent.invoke(...)`: steps until the end node, or until the fuel is used up. */
  function Invoke(w: Workflow, o: Oracles, c: Config, fuel: nat): (r: Config)
    requires |c.messages| > 0
    ensures c.messages <= r.messages && r.query == c.query
    decreases fuel
  {
    if c.node == EndNode || fuel == 0 then c
    else
      var next := Step(w, o, c);
      var r := Invoke(w, o, next, fuel - 1);
      assert c.messages <= next.messages <= r.messages;
      r
  }

  /** The initial state: exactly one human message. */
  function Start(query: string, firstMessage: string): Config {
    Config(AgentNode, [Human(firstMessage)], query, None)
  }

  /** The stored messages: the human query first, then replies and tool results only. */
  predicate WellFormedTrace(msgs: seq<Message>) {
    && |msgs| > 0
    && msgs[0].Human?
    && (forall i :: 1 <= i < |msgs| ==> msgs[i].AI? || msgs[i].Tool?)
    && (forall i :: 1 <= i < |msgs| && msgs[i].Tool? ==> msgs[i - 1].Tool? || HasToolCalls(msgs[i - 1]))
  }

  /**
   * The current node agrees with the last message and with the structured answer,
   * which, once synthesis has run, is what the synthesis call returned on the
   * messages before "Synthesis complete".
   */
  predicate NodeAgrees(w: Workflow, o: Oracles, c: Config)
    requires |c.messages| > 0
  {
    && (c.node != EndNode ==> c.structured.None?)
    && (c.node == ToolsNode ==> HasToolCalls(Last(c.messages)))
    && (c.node == SynthesizeNode ==> w.synthesisPrompt.Some? && !HasToolCalls(Last(c.messages)))
    && (c.node == EndNode && w.synthesisPrompt.None? ==> IsToolFreeReply(Last(c.messages)))
    && (c.node == EndNode && w.synthesisPrompt.Some? ==>
          && Last(c.messages) == AI(SynthesisDone, [], None)
          && c.structured == SynthesisCall(w, o, c.query, c.messages[..|c.messages| - 1]))
  }

  /** What every reachable state satisfies. */
  ghost predicate Consistent(w: Workflow, o: Oracles, c: Config) {
    WellFormedTrace(c.messages) && NodeAgrees(w, o, c)
  }

  lemma StepConsistent(w: Workflow, o: Oracles, c: Config)
    requires Consistent(w, o, c)
    ensures Consistent(w, o, Step(w, o, c))
  {
    var r := Step(w, o, c);
    if c.node == ToolsNode {
      var outs := ToolMessages(ToolCallsOf(Last(c.messages)), o.tools);
      assert r.messages == c.messages + outs;
      forall i | 1 <= i < |r.messages| && r.messages[i].Tool?
        ensures r.messages[i - 1].Tool? || HasToolCalls(r.messages[i - 1])
      {
        if i > |c.messages| {
          assert r.messages[i - 1] == outs[i - 1 - |c.messages|];
        }
      }
    } else if c.node == SynthesizeNode {
      assert r.messages[..|r.messages| - 1] == c.messages;
    }
  }

  /** Whatever one step preserves, a whole run preserves. */
  lemma {:induction false} InvokePreserves(w: Workflow, o: Oracles, c: Config, fuel: nat, inv: Config -> bool)
    requires |c.messages| > 0 && inv(c)
    requires forall x: Config :: |x.messages| > 0 && x.node != EndNode && inv(x) ==> inv(Step(w, o, x))
    ensures inv(Invoke(w, o, c, fuel))
    decreases fuel
  {
    if c.node != EndNode && fuel > 0 {
      InvokePreserves(w, o, Step(w, o, c), fuel - 1, inv);
    }
  }

  lemma InvokeConsistent(w: Workflow, o: Oracles, c: Config, fuel: nat)
    requires Consistent(w, o, c)
    ensures Consistent(w, o, Invoke(w, o, c, fuel))
  {
    forall x: Config | |x.messages| > 0 && x.node != EndNode && Consistent(w, o, x)
      ensures Consistent(w, o, Step(w, o, x))
    {
      StepConsistent(w, o, x);
    }
    InvokePreserves(w, o, c, fuel, (x: Config) => Consistent(w, o, x));
  }

  /**
   * After the agent node: exactly one AI message (the model's reply) is appended,
   * control goes to the tools node iff that reply carries tool calls, and otherwise
   * the run ends (plain workflows) or goes to synthesis (never straight to the end).
   */
  lemma AgentStepRouting(w: Workflow, o: Oracles, c: Config)
    requires |c.messages| > 0 && c.node == AgentNode
    ensures var reply := o.model(ModelInput(w, c.messages));
      && Step(w, o, c).messages == c.messages + [AI(reply.content, reply.toolCalls, reply.usage)]
      && (Step(w, o, c).node == ToolsNode <==> |reply.toolCalls| > 0)
      && (|reply.toolCalls| == 0 && w.synthesisPrompt.None? ==> Step(w, o, c).node == EndNode)
      && (|reply.toolCalls| == 0 && w.synthesisPrompt.Some? ==> Step(w, o, c).node == SynthesizeNode)
  {
  }

  /**
   * After the tools node, control always returns to the agent. The node runs every
   * call of the last reply and appends one tool message per call, in call order,
   * each holding the executor's result for that call and the called tool's name.
   */
  lemma ToolsStepReturnsToAgent(w: Workflow, o: Oracles, c: Config)
    requires |c.messages| > 0 && c.node == ToolsNode
    ensures var calls := ToolCallsOf(Last(c.messages));
      && Step(w, o, c).node == AgentNode
      && |Step(w, o, c).messages| == |c.messages| + |calls|
      && Step(w, o, c).messages[..|c.messages|] == c.messages
      && (forall i :: 0 <= i < |calls| ==>
            Step(w, o, c).messages[|c.messages| + i] == Tool(o.tools(calls[i]), calls[i].name))
    ensures Step(w, o, c).structured == c.structured
  {
  }

  /**
   * The synthesis node is terminal: it sets the structured answer from one
   * schema-constrained call on the evidence and appends exactly one AI message.
   */
  lemma SynthesisStepIsTerminal(w: Workflow, o: Oracles, c: Config)
    requires |c.messages| > 0 && c.node == SynthesizeNode && w.synthesisPrompt.Some?
    ensures Step(w, o, c).node == EndNode
    ensures Step(w, o, c).messages == c.messages + [AI(SynthesisDone, [], None)]
    ensures Step(w, o, c).structured
         == o.synth(SynthesisMessage(w.synthesisPrompt.value, c.query, EvidenceContext(c.messages)))
  {
  }

  /** A whole run keeps the human query first, stores no system message and ends as the graph says. */
  lemma RunShape(w: Workflow, o: Oracles, query: string, first: string, fuel: nat)
    ensures var r := Invoke(w, o, Start(query, first), fuel);
      && r.messages[0] == Human(first)
      && (forall i :: 0 <= i < |r.messages| ==> !r.messages[i].System?)
      && (forall i :: 1 <= i < |r.messages| && r.messages[i].Tool? ==>
            r.messages[i - 1].Tool? || HasToolCalls(r.messages[i - 1]))
      && (r.node == EndNode && w.synthesisPrompt.None? ==> IsToolFreeReply(Last(r.messages)))
      && (r.node == EndNode && w.synthesisPrompt.Some? ==>
            && Last(r.messages) == AI(SynthesisDone, [], None)
            && r.structured == SynthesisCall(w, o, query, r.messages[..|r.messages| - 1]))
      && (r.node != EndNode ==> r.structured.None?)
  {
    InvokeConsistent(w, o, Start(query, first), fuel);
  }

  /**
   * The system prompt is seen by the first model call only: once the run has taken
   * a step, the state holds at least two messages and the model gets them as they are.
   */
  lemma PromptOnlyOnFirstCall(w: Workflow, o: Oracles, query: string, first: string, fuel: nat)
    requires fuel >= 1
    ensures |Invoke(w, o, Start(query, first), fuel).messages| >= 2
    ensures ModelInput(w, Invoke(w, o, Start(query, first), fuel).messages)
         == Invoke(w, o, Start(query, first), fuel).messages
  {
    var s := Start(query, first);
    var next := Step(w, o, s);
    assert |next.messages| == 2;
    assert Invoke(w, o, s, fuel) == Invoke(w, o, next, fuel - 1);
  }

  /** Fuel only bounds the model: a finished run is the same with any more fuel. */
  lemma {:induction false} FinishedRunIgnoresExtraFuel(w: Workflow, o: Oracles, c: Config, fuel: nat, more: nat)
    requires |c.messages| > 0
    requires Invoke(w, o, c, fuel).node == EndNode && fuel <= more
    ensures Invoke(w, o, c, more) == Invoke(w, o, c, fuel)
    decreases fuel
  {
    if c.node != EndNode {
      FinishedRunIgnoresExtraFuel(w, o, Step(w, o, c), fuel - 1, more - 1);
    }
  }

  /**
   * A plain workflow whose model answers the first call without tools finishes
   * after that one call, holding the query and the reply.
   */
  lemma DirectReplyRun(w: Workflow, o: Oracles, query: string, first: string, fuel: nat)
    requires w.synthesisPrompt.None? && fuel >= 1
    requires |o.model(ModelInput(w, [Human(first)])).toolCalls| == 0
    ensures Invoke(w, o, Start(query, first), fuel)
         == Config(EndNode, [Human(first), ReplyMessage(o.model(ModelInput(w, [Human(first)])))], query, None)
  {
  }
}
