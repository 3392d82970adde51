/**
 * The AKS (network knowledge) workflow: the search loop, followed by one
 * structured-synthesis step, and the markdown rendering of the structured answer.
 */
module AksGraph {
  import opened Wrappers
  import opened Text
  import opened Messages
  import opened Synthesis
  import opened AgentLoop
  import opened RunResults

  function AksWorkflow(searchPrompt: string, synthesisPrompt: string): Workflow {
    Workflow(Some(searchPrompt), Some(synthesisPrompt))
  }

  /** What `run_aks_query` answers when the final state holds no structured answer. */
  const NoStructuredAnswer: string := "Error: No structured answer generated"

  const NoFormsLine: string := "- No specific forms required for this query"

  function SourceLine(src: SourceReference): string {
    "- " + src.title + ": " + src.details
  }

  function SourceLines(srcs: seq<SourceReference>): (ls: seq<string>)
    ensures |ls| == |srcs|
    ensures forall k :: 0 <= k < |srcs| ==> ls[k] == SourceLine(srcs[k])
  {
    seq(|srcs|, k requires 0 <= k < |srcs| => SourceLine(srcs[k]))
  }

  function FormLines(forms: seq<string>): (ls: seq<string>)
    ensures |ls| == |forms|
    ensures forall k :: 0 <= k < |forms| ==> ls[k] == "- " + forms[k]
  {
    seq(|forms|, k requires 0 <= k < |forms| => "- " + forms[k])
  }

  /** The lines `format_structured_answer` collects, in order. */
  function AnswerLines(a: DualSourceAnswer): seq<string> {
    HeadLines(a) + (if |a.itForms| > 0 then FormLines(a.itForms) else [NoFormsLine])
  }

  /** `format_structured_answer`: the lines joined with newlines. */
  function FormatStructuredAnswer(a: DualSourceAnswer): string {
    Join("\n", AnswerLines(a))
  }

  /** The appends of `format_structured_answer`, one section after the other. */
  method CollectAnswerLines(a: DualSourceAnswer) returns (output: seq<string>)
    ensures output == AnswerLines(a)
  {
    output := ["## From CVS Internal Knowledge Base\n", a.internalExplanation, "\n\n**Internal Sources Used:**"];
    var base := output;
    for k := 0 to |a.internalSources|
      invariant output == base + SourceLines(a.internalSources[..k])
    {
      assert SourceLines(a.internalSources[..k + 1]) == SourceLines(a.internalSources[..k]) + [SourceLine(a.internalSources[k])];
      output := output + [SourceLine(a.internalSources[k])];
    }
    assert a.internalSources[..|a.internalSources|] == a.internalSources;
    output := output + ["\n\n---\n", "## From Azure Documentation (Web)\n", a.webExplanation, "\n\n**Web Sources Used:**"];
    base := output;
    for k := 0 to |a.webSources|
      invariant output == base + SourceLines(a.webSources[..k])
    {
      assert SourceLines(a.webSources[..k + 1]) == SourceLines(a.webSources[..k]) + [SourceLine(a.webSources[k])];
      output := output + [SourceLine(a.webSources[k])];
    }
    assert a.webSources[..|a.webSources|] == a.webSources;
    output := output + ["\n\n---\n", "## Key Differences & Recommendations\n", a.comparison, "\n\n---\n", "## Required IT Forms\n"];
    if |a.itForms| > 0 {
      base := output;
      for k := 0 to |a.itForms|
        invariant output == base + FormLines(a.itForms[..k])
      {
        assert FormLines(a.itForms[..k + 1]) == FormLines(a.itForms[..k]) + ["- " + a.itForms[k]];
        output := output + ["- " + a.itForms[k]];
      }
      assert a.itForms[..|a.itForms|] == a.itForms;
    } else {
      output := output + [NoFormsLine];
    }
  }

  /** The fixed lines before the web sources, and the number of lines before the forms. */
  function HeadLines(a: DualSourceAnswer): (ls: seq<string>)
    ensures |ls| == 12 + |a.internalSources| + |a.webSources|
  {
    ["## From CVS Internal Knowledge Base\n", a.internalExplanation, "\n\n**Internal Sources Used:**"]
      + SourceLines(a.internalSources)
      + ["\n\n---\n", "## From Azure Documentation (Web)\n", a.webExplanation, "\n\n**Web Sources Used:**"]
      + SourceLines(a.webSources)
      + ["\n\n---\n", "## Key Differences & Recommendations\n", a.comparison, "\n\n---\n", "## Required IT Forms\n"]
  }

  lemma HeadLayout(a: DualSourceAnswer)
    ensures var ls := HeadLines(a);
      var ni, nw := |a.internalSources|, |a.webSources|;
      && ls[1] == a.internalExplanation
      && ls[3..3 + ni] == SourceLines(a.internalSources)
      && ls[4 + ni] == "## From Azure Documentation (Web)\n"
      && ls[5 + ni] == a.webExplanation
      && ls[7 + ni..7 + ni + nw] == SourceLines(a.webSources)
      && ls[9 + ni + nw] == a.comparison
      && ls[11 + ni + nw] == "## Required IT Forms\n"
  {
    var ni, nw := |a.internalSources|, |a.webSources|;
    var head: seq<string> := ["## From CVS Internal Knowledge Base\n", a.internalExplanation, "\n\n**Internal Sources Used:**"];
    var mid: seq<string> := ["\n\n---\n", "## From Azure Documentation (Web)\n", a.webExplanation, "\n\n**Web Sources Used:**"];
    var tail: seq<string> := ["\n\n---\n", "## Key Differences & Recommendations\n", a.comparison, "\n\n---\n", "## Required IT Forms\n"];
    var p1 := head + SourceLines(a.internalSources);
    var p3 := p1 + mid + SourceLines(a.webSources);
    var ls := p3 + tail;
    assert ls == HeadLines(a);
    assert p1[3..3 + ni] == SourceLines(a.internalSources);
    assert ls[3..3 + ni] == p1[3..3 + ni];
    assert p3[7 + ni..7 + ni + nw] == SourceLines(a.webSources);
    assert ls[7 + ni..7 + ni + nw] == p3[7 + ni..7 + ni + nw];
  }

  /**
   * The layout of the rendered answer: twelve fixed lines, one per source and per
   * form (or the single no-forms line), with every internal source listed before
   * the web section's heading and every web source after it.
   */
  lemma AnswerLayout(a: DualSourceAnswer)
    ensures var ls := AnswerLines(a);
      var ni, nw := |a.internalSources|, |a.webSources|;
      && |ls| == 12 + ni + nw + (if |a.itForms| > 0 then |a.itForms| else 1)
      && ls[1] == a.internalExplanation
      && ls[3..3 + ni] == SourceLines(a.internalSources)
      && ls[4 + ni] == "## From Azure Documentation (Web)\n"
      && ls[5 + ni] == a.webExplanation
      && ls[7 + ni..7 + ni + nw] == SourceLines(a.webSources)
      && ls[9 + ni + nw] == a.comparison
      && ls[11 + ni + nw] == "## Required IT Forms\n"
      && ls[12 + ni + nw..] == (if |a.itForms| > 0 then FormLines(a.itForms) else [NoFormsLine])
  {
    var ni, nw := |a.internalSources|, |a.webSources|;
    var h := HeadLines(a);
    var forms := if |a.itForms| > 0 then FormLines(a.itForms) else [NoFormsLine];
    var ls := AnswerLines(a);
    assert ls == h + forms;
    HeadLayout(a);
    assert ls[..12 + ni + nw] == h;
    assert ls[3..3 + ni] == h[3..3 + ni];
    assert ls[7 + ni..7 + ni + nw] == h[7 + ni..7 + ni + nw];
  }

  lemma LineShown(a: DualSourceAnswer, k: nat, line: string)
    requires k < |AnswerLines(a)| && AnswerLines(a)[k] == line
    ensures Contains(FormatStructuredAnswer(a), line)
  {
    JoinContains("\n", AnswerLines(a), k);
  }

  /** The three explanations appear in the rendering. */
  lemma RenderingShowsExplanations(a: DualSourceAnswer)
    ensures Contains(FormatStructuredAnswer(a), a.internalExplanation)
    ensures Contains(FormatStructuredAnswer(a), a.webExplanation)
    ensures Contains(FormatStructuredAnswer(a), a.comparison)
  {
    var ni, nw := |a.internalSources|, |a.webSources|;
    AnswerLayout(a);
    LineShown(a, 1, a.internalExplanation);
    LineShown(a, 5 + ni, a.webExplanation);
    LineShown(a, 9 + ni + nw, a.comparison);
  }

  lemma InternalSourceShown(a: DualSourceAnswer, k: nat)
    requires k < |a.internalSources|
    ensures Contains(FormatStructuredAnswer(a), SourceLine(a.internalSources[k]))
  {
    var ni := |a.internalSources|;
    var ls := HeadLines(a);
    HeadLayout(a);
    assert ls[3 + k] == ls[3..3 + ni][k];
    assert AnswerLines(a)[3 + k] == ls[3 + k];
    LineShown(a, 3 + k, SourceLine(a.internalSources[k]));
  }

  lemma WebSourceShown(a: DualSourceAnswer, k: nat)
    requires k < |a.webSources|
    ensures Contains(FormatStructuredAnswer(a), SourceLine(a.webSources[k]))
  {
    var ni, nw := |a.internalSources|, |a.webSources|;
    var ls := HeadLines(a);
    HeadLayout(a);
    assert ls[7 + ni + k] == ls[7 + ni..7 + ni + nw][k];
    assert AnswerLines(a)[7 + ni + k] == ls[7 + ni + k];
    LineShown(a, 7 + ni + k, SourceLine(a.webSources[k]));
  }

  /** Every internal and every web source is listed in the rendering. */
  lemma RenderingShowsSources(a: DualSourceAnswer)
    ensures forall k :: 0 <= k < |a.internalSources| ==>
      Contains(FormatStructuredAnswer(a), SourceLine(a.internalSources[k]))
    ensures forall k :: 0 <= k < |a.webSources| ==>
      Contains(FormatStructuredAnswer(a), SourceLine(a.webSources[k]))
  {
    forall k | 0 <= k < |a.internalSources| ensures Contains(FormatStructuredAnswer(a), SourceLine(a.internalSources[k])) {
      InternalSourceShown(a, k);
    }
    forall k | 0 <= k < |a.webSources| ensures Contains(FormatStructuredAnswer(a), SourceLine(a.webSources[k])) {
      WebSourceShown(a, k);
    }
  }

  lemma FormLineShown(a: DualSourceAnswer, k: nat)
    requires k < |a.itForms|
    ensures Contains(FormatStructuredAnswer(a), "- " + a.itForms[k])
  {
    var hl, fl := HeadLines(a), FormLines(a.itForms);
    var h := |hl|;
    assert AnswerLines(a) == hl + fl;
    assert (hl + fl)[h + k] == fl[k];
    LineShown(a, h + k, "- " + a.itForms[k]);
  }

  /** Every IT form is listed, and without forms the rendering says none are required. */
  lemma RenderingShowsForms(a: DualSourceAnswer)
    ensures forall k :: 0 <= k < |a.itForms| ==> Contains(FormatStructuredAnswer(a), "- " + a.itForms[k])
    ensures |a.itForms| == 0 ==> Contains(FormatStructuredAnswer(a), NoFormsLine)
  {
    forall k | 0 <= k < |a.itForms| ensures Contains(FormatStructuredAnswer(a), "- " + a.itForms[k]) {
      FormLineShown(a, k);
    }
    if |a.itForms| == 0 {
      var hl := HeadLines(a);
      assert AnswerLines(a) == hl + [NoFormsLine];
      assert (hl + [NoFormsLine])[|hl|] == NoFormsLine;
      LineShown(a, |hl|, NoFormsLine);
    }
  }

  /**
   * `search_node` and `should_continue_search`: a reply with tool calls goes to the
   * tools, any other reply to the synthesis node, never straight to the end.
   */
  lemma AksSearchStep(searchPrompt: string, synthesisPrompt: string, o: Oracles, c: Config)
    requires |c.messages| > 0 && c.node == AgentNode
    ensures var w := AksWorkflow(searchPrompt, synthesisPrompt);
      && ModelInput(w, c.messages) == (if |c.messages| == 1 then [System(searchPrompt)] + c.messages else c.messages)
      && Step(w, o, c).messages == c.messages + [ReplyMessage(o.model(ModelInput(w, c.messages)))]
      && (Step(w, o, c).node == ToolsNode <==> HasToolCalls(Last(Step(w, o, c).messages)))
      && (Step(w, o, c).node != ToolsNode ==> Step(w, o, c).node == SynthesizeNode)
  {
  }

  /** The dictionary `run_aks_query` returns. */
  datatype AksOutput = AksOutput(
    answer: string,
    structuredData: Option<DualSourceAnswer>,
    toolCalls: seq<TraceEntry>,
    tokensUsed: nat,
    fullTrace: seq<Message>)

  /** A rendered answer starts with its first heading, so it is never the error text. */
  lemma RenderingIsNotTheError(a: DualSourceAnswer)
    ensures FormatStructuredAnswer(a) != NoStructuredAnswer
  {
    var ls := AnswerLines(a);
    assert ls[0] == "## From CVS Internal Knowledge Base\n";
    assert FormatStructuredAnswer(a) == ls[0] + "\n" + Join("\n", ls[1..]);
    assert FormatStructuredAnswer(a)[0] != NoStructuredAnswer[0];
  }

  /**
   * `run_aks_query`. A finished run reports what the synthesis call returned as the
   * structured data; the answer is its rendering, or the error text exactly when
   * that call returned no answer.
   */
  method RunAksQuery(searchPrompt: string, synthesisPrompt: string, o: Oracles, query: string, fuel: nat)
    returns (r: Result<AksOutput, RunError>)
    ensures var c := Invoke(AksWorkflow(searchPrompt, synthesisPrompt), o, Start(query, query), fuel);
      && (c.node != EndNode ==> r == Failure(OutOfFuel))
      && (c.node == EndNode ==>
            && r.Success?
            && r.value.structuredData == c.structured
            && r.value.toolCalls == Trace(c.messages)
            && r.value.tokensUsed == GuardedTokens(c.messages)
            && r.value.fullTrace == c.messages)
    ensures r.Success? ==>
      r.value.answer == (if r.value.structuredData.Some? then FormatStructuredAnswer(r.value.structuredData.value)
                         else NoStructuredAnswer)
    ensures r.Success? ==> (r.value.answer == NoStructuredAnswer <==> r.value.structuredData.None?)
    ensures r.Success? ==> Last(r.value.fullTrace) == AI(SynthesisDone, [], None)
  {
    var w := AksWorkflow(searchPrompt, synthesisPrompt);
    var c := Invoke(w, o, Start(query, query), fuel);
    if c.node != EndNode {
      return Failure(OutOfFuel);
    }
    var scan := ScanMessages(c.messages, true);
    var formatted: string;
    if c.structured.Some? {
      var lines := CollectAnswerLines(c.structured.value);
      formatted := Join("\n", lines);
      RenderingIsNotTheError(c.structured.value);
    } else {
      formatted := NoStructuredAnswer;
    }
    RunShape(w, o, query, query, fuel);
    r := Success(AksOutput(formatted, c.structured, scan.value.trace, scan.value.tokens, c.messages));
  }

  /**
   * A finished run holds exactly what the schema-constrained call returned on the
   * query and the evidence gathered before "Synthesis complete"; so the error text
   * is reported exactly when that call returned no answer.
   */
  lemma SynthesisDecidesStructuredAnswer(searchPrompt: string, synthesisPrompt: string, o: Oracles, query: string, fuel: nat)
    ensures var c := Invoke(AksWorkflow(searchPrompt, synthesisPrompt), o, Start(query, query), fuel);
      c.node == EndNode ==>
        && |c.messages| >= 2
        && c.structured == o.synth(SynthesisMessage(synthesisPrompt, query, EvidenceContext(c.messages[..|c.messages| - 1])))
  {
    RunShape(AksWorkflow(searchPrompt, synthesisPrompt), o, query, query, fuel);
  }
}
