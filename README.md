# Lumina Lite Agentic: a verified model of the agent workflows and their tools

Lumina Lite is a set of six LangGraph agents. They answer enterprise questions: colleague lookup, video search, policy change detection, image analysis, questions about the system's own architecture ("Ask Me") and AKS networking with two sources of evidence. The agents share guardrails and cost utilities.

This project models the following:

- **The common agent graph** (`AgentLoop`). Every workflow compiles the same graph. An agent node calls the tool-bound model, and the system prompt is prepended only on the first call. A conditional edge goes to the tools node when the reply requests tools. The tools node always returns to the agent. The `operator.add` reducer appends what each node returns. In the AKS variant, a reply without tool calls leads once through a synthesis node that produces a schema-constrained answer.
- **The run functions** (`RunResults` and one module per graph). Each `run_*` function scans the finished message list. It builds the tool-call trace, sums tokens (guarded or unguarded) and takes the last tool-free AI reply as the answer. The AKS run instead renders the structured answer as markdown.
- **The tools.** These are the HR table queries, the AKS web search and IT form suggestions, the architecture-diagram selection, the video transcript lookups, and the policy diff scan, notification routing and change summary.
- **The core utilities.** These are input and output guardrails, the path sanitiser, cost arithmetic and projections, optimisation recommendations and the feature efficiency ranking.

**Parameters.** The model, the tool executor, the structured-output model, the vision model, the file system, the CSV table, the diff lines and the query log are parameters of the model:

- a language model is a total function from what it is sent to what it returns;
- an existing file is a predicate on names;
- a loaded file is a value.

**Form.** Functions in the source that loop are methods, proved against specification functions. Pure rules are functions, and their properties are lemmas.

## Model

| member | source | states |
|---|---|---|
| AgentLoop.Step | src/graphs/colleague_graph.py:75-111 | one node step only appends to the message list (the `operator.add` reducer) |
| AgentLoop.Invoke | src/graphs/colleague_graph.py:132-136 | a whole run only appends to the initial messages |
| AgentLoop.StepConsistent | src/graphs/colleague_graph.py:95-111 | one step preserves the reachable-state invariant: the human query stays first, no system message is stored, every tool message follows a tool-requesting reply or another tool message, and the node agrees with the last message |
| AgentLoop.InvokePreserves | src/graphs/colleague_graph.py:132-136 | any property of states that one step preserves holds for the state a whole run ends in |
| AgentLoop.InvokeConsistent | src/graphs/colleague_graph.py:95-111 | the reachable-state invariant holds after any number of steps |
| AgentLoop.AgentStepRouting | src/graphs/colleague_graph.py:85-109 | after the agent node, control goes to tools exactly when the reply requests tools; otherwise it ends (or synthesizes, in the AKS variant) |
| AgentLoop.ToolsStepReturnsToAgent | src/graphs/colleague_graph.py:98-111 | the tools node runs every call of the last reply and appends one tool message per call, in call order, holding that call's result and tool name; control always returns to the agent |
| AgentLoop.SynthesisStepIsTerminal | src/graphs/aks_graph.py:148-155 | the synthesis node appends "Synthesis complete", stores whatever the structured-output call returns on the evidence (possibly no answer) and ends the run |
| AgentLoop.RunShape | src/graphs/colleague_graph.py:132-136 | a run keeps the human message first, stores no system message, and ends where the graph says; a finished AKS run holds the structured-output call's result on the messages before "Synthesis complete" |
| AgentLoop.PromptOnlyOnFirstCall | src/graphs/colleague_graph.py:79-80 | once a run has stepped, the model is sent the stored messages without the system prompt |
| AgentLoop.FinishedRunIgnoresExtraFuel | src/graphs/colleague_graph.py:132-136 | a run that reached the end is the same with any larger step bound |
| AgentLoop.DirectReplyRun | src/graphs/colleague_graph.py:85-93 | when the first reply requests no tool, the run ends with exactly the query and that reply |
| RunResults.CallEntries | src/graphs/colleague_graph.py:144-148 | one `{"tool", "args"}` entry per call, in call order |
| RunResults.CallEntriesAt | src/graphs/colleague_graph.py:144-148 | each call becomes the entry at its own position |
| RunResults.LastReplyIndex | src/graphs/colleague_graph.py:153-158 | the found index is a tool-free AI reply with no tool-free reply after it; none is found exactly when no message qualifies |
| RunResults.AppendCalls | src/graphs/colleague_graph.py:144-148 | the inner loop appends exactly the entries of the message's calls |
| RunResults.ScanMessages | src/graphs/colleague_graph.py:142-151 | the scan yields the full trace; the guarded variant always sums tokens, the unguarded one fails exactly when the sum is undefined |
| RunResults.FindFinalAnswer | src/graphs/colleague_graph.py:153-158 | the reverse scan returns the last tool-free AI reply's content, or "" |
| RunResults.UnguardedAbsorbs | src/graphs/colleague_graph.py:150-151 | once the unguarded sum has raised, later messages cannot undo it |
| RunResults.TraceConcat | src/graphs/colleague_graph.py:142-148 | the trace of two message lists joined is the two traces joined |
| RunResults.TraceMembers | src/graphs/colleague_graph.py:142-148 | an entry is traced exactly when some AI message requested that call |
| RunResults.UnguardedDefinedIff | src/graphs/colleague_graph.py:150-151 | the unguarded sum is defined exactly when every AI message carries usage metadata |
| RunResults.UnguardedAgreesWithGuarded | src/graphs/video_graph.py:139-140 | where the unguarded loop does not raise, it counts the same tokens as the guarded loop |
| RunResults.GuardedTokensConcat | src/graphs/video_graph.py:139-140 | the guarded token total is additive over concatenation |
| RunResults.GuardedTokensIgnoresNonUsage | src/graphs/video_graph.py:139-140 | messages without usage metadata add no tokens |
| RunResults.FinishedRunAnswer | src/graphs/colleague_graph.py:153-158 | when a plain workflow finishes, its answer is the content of the reply that ended it |
| RunResults.RunPlainWorkflow | src/graphs/colleague_graph.py:116-165 | the returned dictionary matches the final state; the guarded variant never fails; the trace starts with the query and ends with the answering reply |
| ColleagueGraph.ColleagueAgentStep | src/graphs/colleague_graph.py:75-93 | the colleague agent prepends its prompt only to a one-message state, appends the reply, and routes on its tool calls |
| ColleagueGraph.RunColleagueLookup | src/graphs/colleague_graph.py:116-165 | the unguarded token sum and the answer and trace of the colleague run |
| VideoGraph.VideoAgentStep | src/graphs/video_graph.py:78-94 | the video agent's prompt handling and routing |
| VideoGraph.RunVideoSearch | src/graphs/video_graph.py:117-147 | the guarded run never fails on missing metadata; answer and trace as in the final state |
| PolicyGraph.PolicyQueryNamesVersions | src/graphs/policy_graph.py:143 | the generated query names the old version, then the new one |
| PolicyGraph.PolicyAgentStep | src/graphs/policy_graph.py:87-103 | the policy agent's prompt handling and routing |
| PolicyGraph.RunPolicyDetection | src/graphs/policy_graph.py:126-179 | the run starts from the generated query and reports the final state's trace, tokens and answer |
| ImageAnalysisGraph.InitialMessageCarries | src/graphs/image_analysis_graph.py:97-108 | the initial message contains the image path, the question and the focus areas |
| ImageAnalysisGraph.DefaultFocusIsAll | src/graphs/image_analysis_graph.py:78-101 | without a focus argument the message reads "Focus Areas: all" |
| ImageAnalysisGraph.MessageCarries | src/graphs/image_analysis_graph.py:97-108 | the message's fixed text places the path before the question, whatever follows |
| ImageAnalysisGraph.ImageAgentStep | src/graphs/image_analysis_graph.py:40-52 | without a system prompt the model always sees the stored messages; routing follows the reply's tool calls |
| ImageAnalysisGraph.RunImageAnalysis | src/graphs/image_analysis_graph.py:75-143 | the unguarded run from the composed initial message |
| AskMeGraph.CollectDiagrams | src/graphs/askme_graph.py:143-151 | the scan collects the `diagrams_used` lists of the messages, in message order |
| AskMeGraph.DiagramsUsedConcat | src/graphs/askme_graph.py:143-151 | the collected diagrams are additive over concatenation |
| AskMeGraph.DiagramsComeFromMarkedMessages | src/graphs/askme_graph.py:144-149 | every collected diagram comes from a message whose content mentions `diagrams_used` and starts with "{" |
| AskMeGraph.NoMarkerNoDiagrams | src/graphs/askme_graph.py:144 | without any marked message the list stays empty |
| AskMeGraph.AskMeAgentStep | src/graphs/askme_graph.py:73-89 | the AskMe agent's prompt handling and routing |
| AskMeGraph.RunAskMeQuery | src/graphs/askme_graph.py:112-169 | the guarded run plus the collected diagrams, with answer and trace from the final state |
| AksGraph.CollectAnswerLines | src/graphs/aks_graph.py:183-211 | the appends produce the answer's lines, section by section |
| AksGraph.HeadLines | src/graphs/aks_graph.py:185-204 | the lines before the forms number twelve plus the sources |
| AksGraph.HeadLayout | src/graphs/aks_graph.py:185-204 | where each heading, explanation and source line sits in the rendering |
| AksGraph.AnswerLayout | src/graphs/aks_graph.py:206-211 | the forms section follows the head; with no forms it holds the single fallback line |
| AksGraph.LineShown | src/graphs/aks_graph.py:213 | every collected line occurs in the newline-joined rendering |
| AksGraph.RenderingShowsExplanations | src/graphs/aks_graph.py:185-202 | the internal and web explanations and the comparison all appear |
| AksGraph.InternalSourceShown | src/graphs/aks_graph.py:188-189 | each internal source appears as its own line |
| AksGraph.WebSourceShown | src/graphs/aks_graph.py:196-197 | each web source appears as its own line |
| AksGraph.RenderingShowsSources | src/graphs/aks_graph.py:188-197 | every internal and every web source is listed |
| AksGraph.FormLineShown | src/graphs/aks_graph.py:208-209 | each IT form is listed |
| AksGraph.RenderingShowsForms | src/graphs/aks_graph.py:206-211 | every form is listed; with none, "No specific forms required" is shown |
| AksGraph.AksSearchStep | src/graphs/aks_graph.py:108-126 | the search node's prompt handling; a reply without tools goes to synthesis, not the end |
| AksGraph.RenderingIsNotTheError | src/graphs/aks_graph.py:245-248 | a rendered structured answer never equals the error text |
| AksGraph.RunAksQuery | src/graphs/aks_graph.py:216-256 | a finished run reports the final state's structured data, trace and tokens; the answer is the rendering of the structured data, or the error text exactly when there is none; the trace ends in "Synthesis complete" |
| AksGraph.SynthesisDecidesStructuredAnswer | src/graphs/aks_graph.py:148-155 | a finished run holds exactly what the structured-output call returned on the query and the evidence before "Synthesis complete", so the error text appears exactly when that call returned nothing |
| Synthesis.CollectContextParts | src/graphs/aks_graph.py:132-135 | the loop keeps the non-empty message contents, in order |
| Synthesis.ContextPartsConcat | src/graphs/aks_graph.py:132-135 | the context parts are additive over concatenation |
| Synthesis.ContextPartsMembers | src/graphs/aks_graph.py:132-135 | a content is a part exactly when some message has it and it is non-empty |
| Synthesis.EvidenceIncludesEveryContent | src/graphs/aks_graph.py:137 | the joined evidence contains every non-empty message content |
| Synthesis.EmptyContentSkipped | src/graphs/aks_graph.py:134 | messages with empty content leave the evidence unchanged |
| Synthesis.SynthesisMessageCarries | src/graphs/aks_graph.py:139-146 | the synthesis instruction starts with the prompt and contains the query and the whole evidence |
| Sorting.SortDescCorrect | src/tools/aks_tools.py:202 | the descending sort by key yields an ordered permutation of its input |
| Sorting.SortDescStable | src/tools/aks_tools.py:249 | the sort is stable: elements with equal keys keep their input order |
| Sorting.SortDescConstantKey | src/core/cost_analytics.py:255 | a sequence whose keys are all equal is left as it is |
| AksTools.ScoreWebResult | src/tools/aks_tools.py:185-194 | a result's score is the keyword score function, at most 7 |
| AksTools.SearchWebForAksInfo | src/tools/aks_tools.py:134-209 | the results are the first three of the kept results sorted by score; the count is their number |
| AksTools.ScoreResults | src/tools/aks_tools.py:183-200 | the loop keeps the scored results of the table in table order |
| AksTools.RelevantExactly | src/tools/aks_tools.py:196-200 | a result is kept exactly when it scores above zero or has high relevance |
| AksTools.WebResultsRanked | src/tools/aks_tools.py:202-206 | the returned results score at least as high as every result left out, and are in non-increasing order |
| AksTools.WebResultsStable | src/tools/aks_tools.py:202 | results with equal scores keep their table order |
| AksTools.NoKeywordQuery | src/tools/aks_tools.py:149-209 | a query mentioning no keyword gets the three high-relevance entries, in table order |
| AksTools.UnscoredTable | src/tools/aks_tools.py:196-206 | for a table of three high-relevance entries followed by two others, a query that scores nothing gets the three, unsorted, in table order |
| AksTools.MatchScore | src/tools/aks_tools.py:240-244 | a form's score never exceeds its number of keywords |
| AksTools.SuggestItForms | src/tools/aks_tools.py:213-256 | missing file gives the error; otherwise the top three matched forms by score, and the count of all matches |
| AksTools.ScoreForm | src/tools/aks_tools.py:240-244 | the inner loop counts the form's keywords that match the topic |
| AksTools.MatchedExactly | src/tools/aks_tools.py:245-247 | a form is matched exactly when at least one keyword matches |
| AksTools.MatchScorePositive | src/tools/aks_tools.py:243-245 | the score is positive exactly when some keyword matches |
| AksTools.EmptyTopicMatchesEveryKeyword | src/tools/aks_tools.py:243 | an empty topic matches every keyword |
| AksTools.FormsRanked | src/tools/aks_tools.py:249-256 | listed forms score at least as high as any unlisted match and are ordered; the count is all matches |
| AskMeTools.ScanKeywordPass | src/tools/askme_tools.py:66-71 | one keyword pass appends each existing, not yet selected file whose keyword occurs in the query |
| AskMeTools.FindRelevantDiagrams | src/tools/askme_tools.py:15-94 | no directory gives no diagrams; otherwise the first three of the accumulated selection |
| AskMeTools.ScanKeywordsExtends | src/tools/askme_tools.py:70-71 | a pass only appends, so earlier selections keep their place |
| AskMeTools.ScanKeywordsNoDuplicates | src/tools/askme_tools.py:70 | a pass never adds a file twice |
| AskMeTools.ScanKeywordsMembers | src/tools/askme_tools.py:66-71 | a file is selected exactly when it was already, or it exists and some entry with that file has a keyword occurring in the query |
| AskMeTools.SelectionWellFormed | src/tools/askme_tools.py:66-94 | every chosen file exists, none twice, at most three |
| AskMeTools.FeatureKeywordsNeedHowPhrase | src/tools/askme_tools.py:73-87 | without a "how" phrase every selection other than the main diagram comes from the keyword map |
| AskMeTools.FallbackOnlyWhenNothingSelected | src/tools/askme_tools.py:89-92 | the main-architecture fallback fires exactly when nothing was selected, an architecture word occurs and the diagram exists |
| AskMeTools.KeywordSelectsDiagram | src/tools/askme_tools.py:66-71 | a keyword that occurs in the query selects its diagram whenever the file exists |
| AskMeTools.ExplainWithArchitectureDiagram | src/tools/askme_tools.py:98-160 | with no diagram, the fixed answer and no model call; otherwise the model's answer, the chosen names and its token count |
| AskMeTools.ExplanationReportsSelection | src/tools/askme_tools.py:158 | the reported diagrams are the chosen ones, distinct, at most three |
| DataTools.Matching | src/tools/data_tools.py:36 | a filter never adds rows |
| DataTools.QueryEmployeeDatabase | src/tools/data_tools.py:7-48 | the columns are the available requested ones (or all); the records are the filtered rows projected on them, none at all when no column is left; the count is their number; requested columns the table lacks entirely give no columns, no records and a count of 0 |
| DataTools.NoAvailableColumns | src/tools/data_tools.py:38-40 | requested columns none of which the table has select no column |
| DataTools.SelectedMembers | src/tools/data_tools.py:33-36 | a row is selected exactly when it is a row of the table that passes every criterion on a known column |
| DataTools.MatchingSelected | src/tools/data_tools.py:34-36 | applying one more criterion on a known column is one more conjunct |
| DataTools.UnknownColumnSelected | src/tools/data_tools.py:35 | a criterion on an unknown column is ignored |
| DataTools.FiltersAreConjunctive | src/tools/data_tools.py:33-36 | the sequential filtering equals the conjunction of all criteria |
| DataTools.NoCriteriaSelectsAll | src/tools/data_tools.py:33 | no criteria select every row |
| DataTools.FilterSemantics | src/tools/data_tools.py:33-36 | a row is returned exactly when it matches every criterion on a known column, case-insensitively; never more rows than the table |
| DataTools.AvailableColumnsExactly | src/tools/data_tools.py:38-40 | the output columns are exactly the requested ones the table has, in request order |
| DataTools.QueryRecordsShape | src/tools/data_tools.py:42-48 | each returned record holds exactly the output columns, with the row's values or a missing value |
| DataTools.MatchingMembers | src/tools/data_tools.py:64 | a row matches exactly when its column contains the text, ignoring case |
| DataTools.EmployeeLookupCases | src/tools/data_tools.py:52-76 | not found exactly when no name contains the text; a single employee is the projection of a row whose name contains it |
| DataTools.EmployeeLookupBranches | src/tools/data_tools.py:64-83 | one employee exactly when exactly one row's name contains the text; several matches exactly when at least two rows' names do |
| DataTools.EmployeeLookupListsEveryMatch | src/tools/data_tools.py:78-83 | the multiple-match result lists the matching rows projected in table order; its count is the number of matching rows; every matching row is listed and nothing else is |
| DataTools.MatchingCountsMatches | src/tools/data_tools.py:64 | the filter keeps one row per matching position |
| DataTools.MatchingNonEmpty | src/tools/data_tools.py:66 | the filter is non-empty exactly when some row matches |
| DataTools.MatchingExactlyOne | src/tools/data_tools.py:72 | the filter keeps exactly one row exactly when one row matches and no other does |
| DataTools.MatchingAtLeastTwo | src/tools/data_tools.py:78 | the filter keeps two or more rows exactly when two distinct rows match |
| DataTools.Distinct | src/tools/data_tools.py:116-117 | `unique()` never yields more values than rows |
| DataTools.GetTeamMembers | src/tools/data_tools.py:87-118 | no rows give "not found"; otherwise the count, the records and the distinct roles and locations of the filtered rows |
| DataTools.TeamFiltersConjunctive | src/tools/data_tools.py:100-104 | a member is a row matching every given filter; an absent or empty argument filters nothing |
| DataTools.FirstIndex | src/tools/data_tools.py:116-117 | the first position holding a value |
| DataTools.FirstIndexExtend | src/tools/data_tools.py:116-117 | appending does not move a value's first position |
| DataTools.DistinctSpec | src/tools/data_tools.py:116-117 | the unique values are exactly the values, each once, in order of first appearance |
| DataTools.CountValue | src/tools/data_tools.py:141-143 | a value count never exceeds the row count |
| DataTools.CountValuePositive | src/tools/data_tools.py:141-143 | a value present in some row is counted at least once |
| DataTools.LocationSummaryCounts | src/tools/data_tools.py:122-144 | the total is the number of filtered rows; each reported location and department count is between one and the total |
| VideoTools.GetVideoSummary | src/tools/video_tools.py:143-176 | the first file that loads with that id and every read field gives the summary; otherwise "not found" exactly when no file does |
| VideoTools.Listed | src/tools/video_tools.py:196-204 | a file contributes at most one listing |
| VideoTools.SearchBySpeaker | src/tools/video_tools.py:180-212 | the listings of the matching files in listing order; `count` is their number and `found` is a non-zero count |
| VideoTools.ListedExactly | src/tools/video_tools.py:196-204 | a file is listed exactly when it loads, its speaker contains the name ignoring case and every field is present |
| VideoTools.SpeakerMatchesExactly | src/tools/video_tools.py:193-206 | a listing is returned exactly when some file lists it |
| VideoTools.UnreadableSkipped | src/tools/video_tools.py:205-206 | a file that fails to load changes nothing |
| VideoTools.EmptyNameListsEveryCompleteFile | src/tools/video_tools.py:196 | an empty name lists every complete file |
| PolicyTools.ChangeLines | src/tools/policy_tools.py:70-83 | the added and removed lines of the diff, header lines excluded |
| PolicyTools.Meaningful | src/tools/policy_tools.py:85-88 | the filter never adds changes |
| PolicyTools.ComparePolicyVersions | src/tools/policy_tools.py:26-95 | a missing file gives the error with both flags; otherwise the meaningful count, the first twenty changes and the affected sections |
| PolicyTools.ScanDiffClassifies | src/tools/policy_tools.py:63-83 | the changes are the diff's added and removed lines, one for one and in order, typed and stripped; the affected sections are exactly their sections |
| PolicyTools.ScanDiffSections | src/tools/policy_tools.py:65-83 | the change made from the changed line at position k comes after one change per earlier changed line, and is filed under the name of the last "##" heading before k, or "Unknown" if there is none |
| PolicyTools.ScanLineClassifies | src/tools/policy_tools.py:67-83 | one loop iteration preserves that classification |
| PolicyTools.ChangesSnoc | src/tools/policy_tools.py:71-82 | recording one classified line extends the classification |
| PolicyTools.RecordedSections | src/tools/policy_tools.py:76 | adding a change's section keeps the affected set equal to the changes' sections |
| PolicyTools.NoHeadingsUnknownSection | src/tools/policy_tools.py:65 | a diff without headings files every change under "Unknown" |
| PolicyTools.MeaningfulExactly | src/tools/policy_tools.py:85-88 | a change is kept exactly when its lower-cased content mentions no boilerplate term |
| PolicyTools.ComparisonReport | src/tools/policy_tools.py:90-95 | the reported list is a prefix of the meaningful changes: all of them when there are at most twenty, else the first twenty |
| PolicyTools.TalliedSnoc | src/tools/policy_tools.py:172-179 | one notification keeps groups and counts in agreement with the plan |
| PolicyTools.BreakdownSnoc | src/tools/policy_tools.py:179 | one notification increments its priority's counter |
| PolicyTools.BreakdownCounts | src/tools/policy_tools.py:162-179 | the breakdown keeps the four keys and counts each priority's notifications |
| PolicyTools.NotifyTargets | src/tools/policy_tools.py:170-179 | the innermost loop appends every target's notification, or stops at the first unknown priority |
| PolicyTools.NotifyRule | src/tools/policy_tools.py:167-179 | a matching rule notifies all its targets; a non-matching one adds nothing |
| PolicyTools.NotifySection | src/tools/policy_tools.py:166-179 | every rule in order for one section, or the first failing rule and target |
| PolicyTools.RouteNotifications | src/tools/policy_tools.py:140-186 | the nested loops return the routing result of the plan |
| PolicyTools.GroupsSnoc | src/tools/policy_tools.py:178 | one notification adds its group |
| PolicyTools.SectionPlanPrefix | src/tools/policy_tools.py:166-167 | a section's plan grows rule by rule |
| PolicyTools.PlanPrefix | src/tools/policy_tools.py:164-165 | the plan grows section by section |
| PolicyTools.RulePlanInSectionPlan | src/tools/policy_tools.py:166-177 | a rule's notification is in its section's plan |
| PolicyTools.SectionPlanInPlan | src/tools/policy_tools.py:164-177 | a section's notification is in the plan |
| PolicyTools.NotifiedInPlan | src/tools/policy_tools.py:164-177 | every target of every rule matching an affected section is notified |
| PolicyTools.PlanOnlyFromMatches | src/tools/policy_tools.py:164-177 | every notification comes from a target of a rule matching an affected section |
| PolicyTools.SectionPlanFromMatches | src/tools/policy_tools.py:166-177 | within one section, each notification comes from a matching rule's target |
| PolicyTools.BreakdownCountsAll | src/tools/policy_tools.py:179-184 | with known priorities only, the four counts sum to the number of notifications |
| PolicyTools.RouteReport | src/tools/policy_tools.py:181-186 | the recipient count is the number of distinct groups, at most the plan's length; the breakdown has the four priorities and its counts sum to the plan's length |
| PolicyTools.GroupsBound | src/tools/policy_tools.py:183 | never more recipient groups than notifications |
| PolicyTools.GroupsExactly | src/tools/policy_tools.py:178 | the groups are exactly those of the planned notifications |
| PolicyTools.AllKnownExactly | src/tools/policy_tools.py:179 | the routing fails exactly when some planned notification has an uncounted priority |
| PolicyTools.GroupBySection | src/tools/policy_tools.py:211-216 | each change is filed under its section (default "Unknown"), sections in order of first appearance |
| PolicyTools.SectionSummaries | src/tools/policy_tools.py:227-233 | the loop produces each section's additions and removals line |
| PolicyTools.SummarizePolicyChanges | src/tools/policy_tools.py:190-239 | the empty list gives the fixed summary; otherwise the grouped summary and the key changes, or the error of a missing section key |
| PolicyTools.SectionChangesAbsent | src/tools/policy_tools.py:211-216 | a section that never occurs has no changes |
| PolicyTools.SectionOrderDistinct | src/tools/policy_tools.py:211-216 | the sections are listed once each, exactly those of the changes |
| PolicyTools.KeyChangesAreLongAdditions | src/tools/policy_tools.py:218-225 | key changes are additions with content longer than 20 characters, at most five |
| PolicyTools.CountKindBound | src/tools/policy_tools.py:229-231 | a section's additions and removals never exceed its changes |
| PolicyTools.SummarizeComparison | src/tools/policy_tools.py:204-239 | summarizing the comparison's output never fails, and reports a change exactly when there is one |
| Guardrails.CheckInputSafety | src/core/guardrails.py:11-22 | accepted exactly when the stripped text has at least 3 characters, the text at most 10000 and no harmful term; the message names the first failing check |
| Guardrails.LowerKeepsSpace | src/core/guardrails.py:12 | lower-casing never changes whether a character is whitespace |
| Guardrails.StripLeftLower | src/core/guardrails.py:12 | stripping and lower-casing commute on the left |
| Guardrails.StripRightLower | src/core/guardrails.py:12 | stripping and lower-casing commute on the right |
| Guardrails.InputCheckIgnoresCase | src/core/guardrails.py:18-20 | the input verdict is the same for the text and its lower-cased form |
| Guardrails.HarmfulAnywhere | src/core/guardrails.py:18-20 | a harmful term is found wherever it sits in the text |
| Guardrails.CheckOutputQuality | src/core/guardrails.py:25-33 | accepted exactly when non-empty, long enough after stripping and free of refusal phrases; each rejection has its message |
| Guardrails.EmptyOutputAlwaysTooShort | src/core/guardrails.py:27-28 | an empty answer is too short whatever the minimum |
| Guardrails.DefaultMinimumIsFifty | src/core/guardrails.py:25-28 | with the default minimum an accepted answer has at least 50 characters, and a shorter stripped answer gets "Output too short (min 50 chars)" |
| Guardrails.RefusalAnywhereDeclines | src/core/guardrails.py:30-31 | a long enough answer containing "I cannot" is declined |
| Guardrails.SanitizeFilePath | src/core/guardrails.py:36-40 | the result has only allowed characters and no "~" |
| Guardrails.SanitizeOnlyDeletes | src/core/guardrails.py:38-39 | the result is a subsequence of the input, never longer |
| Guardrails.SanitizeKeepsCleanPath | src/core/guardrails.py:38-39 | a path of allowed characters without ".." is unchanged |
| Guardrails.AllowedHasNoTilde | src/core/guardrails.py:39 | a path of allowed characters contains no "~" |
| Guardrails.NoTildeNotContained | src/core/guardrails.py:38 | a text without the tilde character does not contain "~" |
| Guardrails.TildeCanRejoinDots | src/core/guardrails.py:38 | ".." is removed before "~", so ".~." comes back as ".." |
| Guardrails.SanitizeFilePathIntended | src/core/guardrails.py:36-40 | the corrected order (filter the class, then remove "..") leaves only allowed characters and no ".." at all |
| Guardrails.RemoveDotsLeavesNoDots | src/core/guardrails.py:38 | removing ".." left to right, as `str.replace` does, leaves no ".." behind |
| CostUtils.UnknownModelPricedAsGpt4o | src/core/cost_utils.py:13-17 | a model missing from the table costs what gpt-4o costs |
| CostUtils.CostIsLinear | src/core/cost_utils.py:15-17 | cost is additive in the token counts and zero for no tokens |
| CostUtils.CostNonNegative | src/core/cost_utils.py:3-23 | chat and embedding costs are never negative |
| CostUtils.EmbeddingDefaultRate | src/core/cost_utils.py:21-23 | an unknown embedding model is priced at 0.02 per million input tokens |
| CostUtils.ProjectionConsistent | src/core/cost_utils.py:26-58 | the figures agree (30 days, 12 months, per-user share adds back up); zero users raise |
| CostUtils.ProjectionScalesWithUsers | src/core/cost_utils.py:48-56 | doubling users doubles the monthly cost and keeps the per-user cost |
| CostUtils.TokenEstimateBounds | src/core/cost_utils.py:61-63 | the estimate is the number of whole four-character blocks and is near-additive |
| CostUtils.RecommendationCases | src/core/cost_utils.py:66-73 | only "simple" gets the mini model; the recommendation is priced and never dearer than gpt-4o |
| CostAnalytics.GenerateOptimizationRecommendations | src/core/cost_analytics.py:104-203 | five recommendations with their percents and savings on the 300k-user baseline, then the total, capped at 70 percent, with its annual figure |
| CostAnalytics.TotalIsCapped | src/core/cost_analytics.py:185-196 | the percents sum to 100, so the total is the 70 percent cap of the baseline |
| CostAnalytics.AllFailingFeatureUnpenalised | src/core/cost_analytics.py:240 | as written, a success rate of 0.0 gets no failure penalty, less than a rate of 0.5 |
| CostAnalytics.FailurePenaltyMonotone | src/core/cost_analytics.py:240 | the corrected penalty falls as the success rate rises: 10 at 0.0, none at 1.0 or with no data |
| CostAnalytics.AnalyzeFeatureEfficiency | src/core/cost_analytics.py:206-261 | "No data available" exactly when the query log is missing; otherwise the entries as written (every `or` default, including `success_rate or 1`), sorted ascending by score as RankingOrdered describes; most and least efficient are the first and last, absent exactly when there are no rows |
| CostAnalytics.AllFailingScoresAsAllSucceeding | src/core/cost_analytics.py:240-249 | as written, an all-failing feature gets the same entry as an identical all-succeeding one, with a reported rate of 1 |
| CostAnalytics.AllFailingFeatureRankedFirst | src/core/cost_analytics.py:238-260 | as written, a cheap all-failing feature is ranked most efficient ahead of a dearer all-succeeding one whose corrected score is better |
| CostAnalytics.RankingOrdered | src/core/cost_analytics.py:255-260 | the ranking is ascending, a permutation of the rows, stable on ties, and bracketed by its ends |
| CostAnalytics.Ranked | src/core/cost_analytics.py:255 | the ascending sort is ordered, a permutation and stable |
| CostAnalytics.AscendingFromNegated | src/core/cost_analytics.py:255 | sorting descending on the negated score is ascending on the score |
| CostAnalytics.AscendingExtremes | src/core/cost_analytics.py:259-260 | in an ascending list the first is lowest and the last is highest |
| CostAnalytics.FailuresRankLower | src/core/cost_analytics.py:240-249 | with the corrected penalty, total failure adds 10 to the score, and the corrected entry reports the rate 0.0 |

## Left out

- LangGraph itself is not modelled: the graph runtime, `StateGraph` and the `ToolNode` internals. The graph is a step function. The language model, the tool executor and the structured-output model are oracle parameters, and so are all system prompt texts.
- The tools node's executor is a function of the call alone: a tool's result depends only on its name and arguments during a run (files and tables are fixed inputs), and the parallel execution of several calls is not modelled.
- AgentLoop.Invoke: a run is bounded by a `fuel` count. The runtime's own recursion limit is not modelled, and a run that uses up its fuel stops where it is.
- Extra initial-state keys (`query`, `search_complete`, `old_version`, `new_version`, the image path) are not modelled, because no node reads them. Exception: the AKS synthesis node reads `query`, and that query is passed explicitly.
- `.lower()` is modelled as ASCII lower-casing. Python's Unicode case mapping is not modelled.
- Each harmful-content pattern of the guardrails is a case-insensitive alternation of literal words, such as `(?i)(hack|exploit|…)`. It is modelled as an ASCII-case-insensitive substring test per word. Python's IGNORECASE also folds some non-ASCII letters, for example 'ſ' matches 's'; like `.lower()` above, this is not modelled.
- pandas' `str.contains` is modelled as a literal substring test: a user-supplied filter value is treated literally, not as a regular expression.
- Float arithmetic is exact real arithmetic. The `round(...)` applied to returned values is not modelled.
- CostAnalytics.AnalyzeFeatureEfficiency sorts by the exact score, but the source sorts by the score rounded to two decimals (cost_analytics.py:250, 255). Two features whose scores round to the same value keep query order in the source, while the model orders them by exact score, so `most_efficient` and `least_efficient` can differ in that case.
- Reading files (CSV, JSON, markdown, images) is not modelled. Their contents are inputs. `difflib.unified_diff` is not modelled either: its output lines are an input.
- `affected_sections` is a set. The order in which `list(set)` prints it is not modelled.
- `get_location_summary`: the `by_location_and_role` group-by is not modelled, nor is the key order of `value_counts()`.
- DataTools.GetEmployeeByName, GetTeamMembers and GetLocationSummary require the columns they index. The employee CSV always has them; in the source a missing column raises KeyError.
- PolicyTools.NotifyTargets reports the index of the failing target where the source raises KeyError on `priority_count[...]`.
- AksTools.WebResultsRanked and AksTools.WebResultsStable are stated for any table of results, not only the five built-in entries.
- `get_performance_metrics`, `get_comprehensive_cost_report` and the SQL query behind `get_feature_efficiency_analysis` are not modelled; whether the query log exists and the feature rows are inputs. Also left out: vector stores and document search, `detect_semantic_drift`, vision image encoding, the UI, logging and tests. None of these is part of this model.

## Findings

| source | as written | input that shows it | evidently intended | confidence | as-written member | corrected member |
|---|---|---|---|---|---|---|
| src/core/cost_analytics.py:240-249 | `(1 - (success_rate or 1)) * 10` and `round(success_rate or 1, 3)` treat a success rate of 0.0 as falsy and replace it with 1 | features A (cost 0.02, latency 500, rate 0.0) and B (cost 0.025, latency 500, rate 1.0): A scores 20.5, reports rate 1 and is ranked most efficient | a failure penalty of 10 (A scores 30.5) and a reported rate of 0.0 | not executed | CostAnalytics.AllFailingFeatureRankedFirst | CostAnalytics.FailuresRankLower |
| src/core/guardrails.py:38 | `path.replace("..", "").replace("~", "")` removes ".." before "~", and the character filter after both can join dots again | ".~." sanitizes to ".." | a sanitized path never contains ".." | not executed | Guardrails.TildeCanRejoinDots | Guardrails.SanitizeFilePathIntended |
