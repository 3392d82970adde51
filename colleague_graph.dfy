/**
 * The colleague-lookup workflow: the plain agent loop over the employee and
 * team-document tools. Its token loop is the unguarded one.
 */
module ColleagueGraph {
  import opened Wrappers
  import opened Messages
  import opened AgentLoop
  import opened RunResults

  function ColleagueWorkflow(systemPrompt: string): Workflow {
    Workflow(Some(systemPrompt), None)
  }

  /**
   * `agent_node` puts the system prompt in front of a one-message state only, and
   * `should_continue` sends a reply with tool calls to the tools node, anything else to the end.
   */
  lemma ColleagueAgentStep(systemPrompt: string, o: Oracles, c: Config)
    requires |c.messages| > 0 && c.node == AgentNode
    ensures var w := ColleagueWorkflow(systemPrompt);
      && ModelInput(w, c.messages) == (if |c.messages| == 1 then [System(systemPrompt)] + c.messages else c.messages)
      && Step(w, o, c).messages == c.messages + [ReplyMessage(o.model(ModelInput(w, c.messages)))]
      && (Step(w, o, c).node == ToolsNode <==> HasToolCalls(Last(Step(w, o, c).messages)))
      && (Step(w, o, c).node != ToolsNode ==> Step(w, o, c).node == EndNode)
  {
  }

  /** `run_colleague_lookup`: the query is the only initial message. */
  method RunColleagueLookup(systemPrompt: string, o: Oracles, query: string, fuel: nat)
    returns (r: Result<RunOutput, RunError>)
    ensures Reported(Invoke(ColleagueWorkflow(systemPrompt), o, Start(query, query), fuel), false, r)
    ensures r.Success? ==> r.value.fullTrace[0] == Human(query)
    ensures r.Success? ==> IsToolFreeReply(Last(r.value.fullTrace)) && r.value.answer == Last(r.value.fullTrace).content
  {
    r := RunPlainWorkflow(ColleagueWorkflow(systemPrompt), o, query, query, fuel, false);
  }
}
