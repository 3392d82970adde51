/**
 * The policy-change workflow: the plain agent loop over the policy tools, started
 * from a query built from the two version file names, with the guarded token loop.
 */
module PolicyGraph {
  import opened Wrappers
  import opened Text
  import opened Messages
  import opened AgentLoop
  import opened RunResults

  function PolicyWorkflow(systemPrompt: string): Workflow {
    Workflow(Some(systemPrompt), None)
  }

  /** The human message `run_policy_detection` starts from. */
  function PolicyQuery(oldVersion: string, newVersion: string): string {
    "Analyze the policy changes between " + oldVersion + " and " + newVersion
      + ". Identify what changed, who needs to be notified, and provide recommendations."
  }

  /** The query names both versions, the old one first. */
  lemma PolicyQueryNamesVersions(oldVersion: string, newVersion: string)
    ensures Contains(PolicyQuery(oldVersion, newVersion), oldVersion)
    ensures Contains(PolicyQuery(oldVersion, newVersion), newVersion)
    ensures var pre := "Analyze the policy changes between ";
      && PolicyQuery(oldVersion, newVersion)[|pre|..|pre| + |oldVersion|] == oldVersion
      && PolicyQuery(oldVersion, newVersion)[|pre| + |oldVersion|..|pre| + |oldVersion| + 5] == " and "
      && PolicyQuery(oldVersion, newVersion)[|pre| + |oldVersion| + 5..|pre| + |oldVersion| + 5 + |newVersion|] == newVersion
  {
    var pre := "Analyze the policy changes between ";
    var post := ". Identify what changed, who needs to be notified, and provide recommendations.";
    ContainsSelf(oldVersion);
    ContainsInConcat(pre, oldVersion, " and " + newVersion + post, oldVersion);
    assert pre + oldVersion + (" and " + newVersion + post) == PolicyQuery(oldVersion, newVersion);
    ContainsSelf(newVersion);
    ContainsInConcat(pre + oldVersion + " and ", newVersion, post, newVersion);
    assert pre + oldVersion + " and " + newVersion + post == PolicyQuery(oldVersion, newVersion);
  }

  /** `agent_node` and `should_continue` of the policy agent. */
  lemma PolicyAgentStep(systemPrompt: string, o: Oracles, c: Config)
    requires |c.messages| > 0 && c.node == AgentNode
    ensures var w := PolicyWorkflow(systemPrompt);
      && ModelInput(w, c.messages) == (if |c.messages| == 1 then [System(systemPrompt)] + c.messages else c.messages)
      && Step(w, o, c).messages == c.messages + [ReplyMessage(o.model(ModelInput(w, c.messages)))]
      && (Step(w, o, c).node == ToolsNode <==> HasToolCalls(Last(Step(w, o, c).messages)))
      && (Step(w, o, c).node != ToolsNode ==> Step(w, o, c).node == EndNode)
  {
  }

  /** `run_policy_detection`: the trace starts with the generated query. */
  method RunPolicyDetection(systemPrompt: string, o: Oracles, oldVersion: string, newVersion: string, fuel: nat)
    returns (r: Result<RunOutput, RunError>)
    ensures var query := PolicyQuery(oldVersion, newVersion);
      Reported(Invoke(PolicyWorkflow(systemPrompt), o, Start(query, query), fuel), true, r)
    ensures r != Failure(MissingUsage)
    ensures r.Success? ==> r.value.fullTrace[0] == Human(PolicyQuery(oldVersion, newVersion))
    ensures r.Success? ==> IsToolFreeReply(Last(r.value.fullTrace)) && r.value.answer == Last(r.value.fullTrace).content
  {
    var query := PolicyQuery(oldVersion, newVersion);
    r := RunPlainWorkflow(PolicyWorkflow(systemPrompt), o, query, query, fuel, true);
  }
}
