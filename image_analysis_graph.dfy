/**
 * The image-analysis workflow: the agent loop without any system prompt, started
 * from a message that embeds the image path, the question and the focus areas.
 * Its token loop is the unguarded one.
 */
module ImageAnalysisGraph {
  import opened Wrappers
  import opened Text
  import opened Messages
  import opened AgentLoop
  import opened RunResults

  const ImageWorkflow: Workflow := Workflow(None, None)

  /** The default of the `focus_areas` parameter. */
  const DefaultFocusAreas: string := "all"

  const InstructionsTail: string :=
    "\n\nPlease analyze this diagram and answer the question. Use the available tools:\n"
    + "1. analyze_architecture_diagram - For comprehensive analysis\n"
    + "2. compare_architecture_patterns - For pattern identification\n"
    + "3. extract_diagram_text - For reading labels/text\n\n"
    + "Start by using the appropriate tool(s) to analyze the diagram."

  /** The one human message `run_image_analysis` starts from. */
  function InitialMessage(imagePath: string, question: string, focusAreas: string): string {
    "I have an architecture diagram at: " + imagePath + "\n\nUser Question: " + question
      + "\n\nFocus Areas: " + focusAreas + InstructionsTail
  }

  /** The message carries the path, the question and the focus areas. */
  lemma InitialMessageCarries(imagePath: string, question: string, focusAreas: string)
    ensures Contains(InitialMessage(imagePath, question, focusAreas), imagePath)
    ensures Contains(InitialMessage(imagePath, question, focusAreas), question)
    ensures Contains(InitialMessage(imagePath, question, focusAreas), focusAreas)
  {
    MessageCarries(imagePath, question, focusAreas, InstructionsTail);
  }

  lemma MessageCarries(imagePath: string, question: string, focusAreas: string, tail: string)
    ensures var m := "I have an architecture diagram at: " + imagePath + "\n\nUser Question: " + question
                     + "\n\nFocus Areas: " + focusAreas + tail;
      Contains(m, imagePath) && Contains(m, question) && Contains(m, focusAreas)
  {
    var a := "I have an architecture diagram at: ";
    var b := "\n\nUser Question: ";
    var c := "\n\nFocus Areas: ";
    var m := a + imagePath + b + question + c + focusAreas + tail;
    assert Contains(m, imagePath) by {
      assert m == a + imagePath + (b + question + c + focusAreas + tail);
      ContainsSelf(imagePath);
      ContainsInConcat(a, imagePath, b + question + c + focusAreas + tail, imagePath);
    }
    assert Contains(m, question) by {
      assert m == a + imagePath + b + question + (c + focusAreas + tail);
      ContainsSelf(question);
      ContainsInConcat(a + imagePath + b, question, c + focusAreas + tail, question);
    }
    assert Contains(m, focusAreas) by {
      ContainsSelf(focusAreas);
      ContainsInConcat(a + imagePath + b + question + c, focusAreas, tail, focusAreas);
    }
  }

  /** Called without `focus_areas`, the message asks for every area: it contains "Focus Areas: all". */
  lemma DefaultFocusIsAll(imagePath: string, question: string)
    ensures Contains(InitialMessage(imagePath, question, DefaultFocusAreas), "Focus Areas: all")
  {
    var pre := "I have an architecture diagram at: " + imagePath + "\n\nUser Question: " + question + "\n\n";
    assert InitialMessage(imagePath, question, DefaultFocusAreas) == pre + "Focus Areas: all" + InstructionsTail;
    ContainsSelf("Focus Areas: all");
    ContainsInConcat(pre, "Focus Areas: all", InstructionsTail, "Focus Areas: all");
  }

  /** Without a system prompt the model always sees exactly the stored messages. */
  lemma ImageAgentStep(o: Oracles, c: Config)
    requires |c.messages| > 0 && c.node == AgentNode
    ensures ModelInput(ImageWorkflow, c.messages) == c.messages
    ensures Step(ImageWorkflow, o, c).messages == c.messages + [ReplyMessage(o.model(c.messages))]
    ensures Step(ImageWorkflow, o, c).node == ToolsNode <==> HasToolCalls(Last(Step(ImageWorkflow, o, c).messages))
    ensures Step(ImageWorkflow, o, c).node != ToolsNode ==> Step(ImageWorkflow, o, c).node == EndNode
  {
  }

  /** `run_image_analysis`. */
  method RunImageAnalysis(o: Oracles, imagePath: string, question: string, focusAreas: string, fuel: nat)
    returns (r: Result<RunOutput, RunError>)
    ensures var first := InitialMessage(imagePath, question, focusAreas);
      Reported(Invoke(ImageWorkflow, o, Start(question, first), fuel), false, r)
    ensures r.Success? ==> r.value.fullTrace[0] == Human(InitialMessage(imagePath, question, focusAreas))
    ensures r.Success? ==> IsToolFreeReply(Last(r.value.fullTrace)) && r.value.answer == Last(r.value.fullTrace).content
  {
    var first := InitialMessage(imagePath, question, focusAreas);
    r := RunPlainWorkflow(ImageWorkflow, o, question, first, fuel, false);
  }
}
