/**
 * The video-search workflow: the plain agent loop over the transcript tools,
 * with the guarded token loop.
 */
module VideoGraph {
  import opened Wrappers
  import opened Messages
  import opened AgentLoop
  import opened RunResults

  function VideoWorkflow(systemPrompt: string): Workflow {
    Workflow(Some(systemPrompt), None)
  }

  /** `agent_node` and `should_continue` of the video agent. */
  lemma VideoAgentStep(systemPrompt: string, o: Oracles, c: Config)
    requires |c.messages| > 0 && c.node == AgentNode
    ensures var w := VideoWorkflow(systemPrompt);
      && ModelInput(w, c.messages) == (if |c.messages| == 1 then [System(systemPrompt)] + c.messages else c.messages)
      && Step(w, o, c).messages == c.messages + [ReplyMessage(o.model(ModelInput(w, c.messages)))]
      && (Step(w, o, c).node == ToolsNode <==> HasToolCalls(Last(Step(w, o, c).messages)))
      && (Step(w, o, c).node != ToolsNode ==> Step(w, o, c).node == EndNode)
  {
  }

  /** `run_video_search`: never fails on missing token metadata. */
  method RunVideoSearch(systemPrompt: string, o: Oracles, query: string, fuel: nat)
    returns (r: Result<RunOutput, RunError>)
    ensures Reported(Invoke(VideoWorkflow(systemPrompt), o, Start(query, query), fuel), true, r)
    ensures r != Failure(MissingUsage)
    ensures r.Success? ==> r.value.fullTrace[0] == Human(query)
    ensures r.Success? ==> IsToolFreeReply(Last(r.value.fullTrace)) && r.value.answer == Last(r.value.fullTrace).content
  {
    r := RunPlainWorkflow(VideoWorkflow(systemPrompt), o, query, query, fuel, true);
  }
}
