/**
 * The AskMe workflow: the plain agent loop over the diagram and metrics tools,
 * with the guarded token loop, plus the diagram names collected from tool results.
 */
module AskMeGraph {
  import opened Wrappers
  import opened Seqs
  import opened Text
  import opened Messages
  import opened AgentLoop
  import opened RunResults

  function AskMeWorkflow(systemPrompt: string): Workflow {
    Workflow(Some(systemPrompt), None)
  }

  /**
   * `json.loads(content).get("diagrams_used", [])`, with `None` where parsing
   * (or the extension) raises and the bare `except` swallows it.
   */
  type DiagramParser = string -> Option<seq<string>>

  /** The diagram names one message contributes. */
  function DiagramsIn(m: Message, parse: DiagramParser): seq<string> {
    if Contains(m.content, "diagrams_used") && "{" <= m.content then
      match parse(m.content)
      case Some(ds) => ds
      case None => []
    else []
  }

  function DiagramsFrom(parse: DiagramParser): Message -> seq<string> {
    m => DiagramsIn(m, parse)
  }

  /** The lists of all messages concatenated in message order. */
  function DiagramsUsed(msgs: seq<Message>, parse: DiagramParser): seq<string> {
    FlatMap(msgs, DiagramsFrom(parse))
  }

  /** The `diagrams_used` part of the scan in `run_askme_query`. */
  method CollectDiagrams(msgs: seq<Message>, parse: DiagramParser) returns (diagrams: seq<string>)
    ensures diagrams == DiagramsUsed(msgs, parse)
  {
    diagrams := [];
    for i := 0 to |msgs|
      invariant diagrams == DiagramsUsed(msgs[..i], parse)
    {
      FlatMapPrefix(msgs, i, DiagramsFrom(parse));
      assert DiagramsFrom(parse)(msgs[i]) == DiagramsIn(msgs[i], parse);
      var content := msgs[i].content;
      if Contains(content, "diagrams_used") {
        if "{" <= content {
          var parsed := parse(content);
          if parsed.Some? {
            diagrams := diagrams + parsed.value;
          }
        }
      }
    }
    assert msgs[..|msgs|] == msgs;
  }

  lemma DiagramsUsedConcat(a: seq<Message>, b: seq<Message>, parse: DiagramParser)
    ensures DiagramsUsed(a + b, parse) == DiagramsUsed(a, parse) + DiagramsUsed(b, parse)
  {
    FlatMapConcat(a, b, DiagramsFrom(parse));
  }

  /**
   * Only messages that mention "diagrams_used" and start with "{" contribute:
   * every collected name comes from the parse of such a message.
   */
  lemma DiagramsComeFromMarkedMessages(msgs: seq<Message>, parse: DiagramParser)
    ensures forall d :: d in DiagramsUsed(msgs, parse) ==>
      exists i ::
        && 0 <= i < |msgs| && Contains(msgs[i].content, "diagrams_used") && "{" <= msgs[i].content
        && parse(msgs[i].content).Some? && d in parse(msgs[i].content).value
  {
    forall d | d in DiagramsUsed(msgs, parse)
      ensures exists i ::
        && 0 <= i < |msgs| && Contains(msgs[i].content, "diagrams_used") && "{" <= msgs[i].content
        && parse(msgs[i].content).Some? && d in parse(msgs[i].content).value
    {
      FlatMapMembers(msgs, DiagramsFrom(parse), d);
      var i :| 0 <= i < |msgs| && d in DiagramsFrom(parse)(msgs[i]);
      assert d in DiagramsIn(msgs[i], parse);
    }
  }

  /** Without any marked message the list stays empty, whatever the parser does. */
  lemma {:induction false} NoMarkerNoDiagrams(msgs: seq<Message>, parse: DiagramParser)
    requires forall i :: 0 <= i < |msgs| ==> !Contains(msgs[i].content, "diagrams_used")
    ensures DiagramsUsed(msgs, parse) == []
  {
    if msgs != [] {
      var n := |msgs| - 1;
      assert forall i :: 0 <= i < n ==> msgs[..n][i] == msgs[i];
      NoMarkerNoDiagrams(msgs[..n], parse);
      assert DiagramsFrom(parse)(msgs[n]) == [];
    }
  }

  /** `agent_node` and `should_continue` of the AskMe agent. */
  lemma AskMeAgentStep(systemPrompt: string, o: Oracles, c: Config)
    requires |c.messages| > 0 && c.node == AgentNode
    ensures var w := AskMeWorkflow(systemPrompt);
      && ModelInput(w, c.messages) == (if |c.messages| == 1 then [System(systemPrompt)] + c.messages else c.messages)
      && Step(w, o, c).messages == c.messages + [ReplyMessage(o.model(ModelInput(w, c.messages)))]
      && (Step(w, o, c).node == ToolsNode <==> HasToolCalls(Last(Step(w, o, c).messages)))
      && (Step(w, o, c).node != ToolsNode ==> Step(w, o, c).node == EndNode)
  {
  }

  /** The dictionary `run_askme_query` returns. */
  datatype AskMeOutput = AskMeOutput(run: RunOutput, diagramsUsed: seq<string>)

  /** `run_askme_query`. */
  method RunAskMeQuery(systemPrompt: string, o: Oracles, parse: DiagramParser, query: string, fuel: nat)
    returns (r: Result<AskMeOutput, RunError>)
    ensures var c := Invoke(AskMeWorkflow(systemPrompt), o, Start(query, query), fuel);
      && (r.Failure? ==> r == Failure(OutOfFuel) && c.node != EndNode)
      && (r.Success? ==>
            && Reported(c, true, Success(r.value.run))
            && r.value.diagramsUsed == DiagramsUsed(c.messages, parse))
    ensures r.Success? ==> r.value.run.fullTrace[0] == Human(query)
    ensures r.Success? ==>
      && IsToolFreeReply(Last(r.value.run.fullTrace))
      && r.value.run.answer == Last(r.value.run.fullTrace).content
  {
    var w := AskMeWorkflow(systemPrompt);
    var base := RunPlainWorkflow(w, o, query, query, fuel, true);
    if base.Failure? {
      return Failure(base.error);
    }
    var diagrams := CollectDiagrams(base.value.fullTrace, parse);
    r := Success(AskMeOutput(base.value, diagrams));
  }
}
