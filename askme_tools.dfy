/**
 * Diagram selection for the AskMe assistant: which architecture diagrams under
 * `diagrams/` go with a question, chosen by keyword, and the explanation tool's
 * answer when none apply. The file system is an input: whether the directory
 * exists, and which file names exist in it. A diagram is identified by its file
 * name, which is also what `diagrams_used` reports.
 */
module AskMeTools {
  import opened Text

  /** A keyword and the diagram it selects (every list in the source holds one file). */
  datatype KeywordEntry = KeywordEntry(keyword: string, file: string)

  const ImageDiagram := "feature1_image_analysis.png"
  const ColleagueDiagram := "feature2_colleague_lookup.png"
  const AksDiagram := "feature3_aks_network.png"
  const VideoDiagram := "feature4_video_search.png"
  const PolicyDiagram := "feature5_policy_change.png"
  const CostDiagram := "feature6_cost_analytics.png"
  const MainArchitecture := "main_architecture.png"

  /** `keyword_map`, in insertion order. */
  const KeywordMap: seq<KeywordEntry> := [
    KeywordEntry("image analysis", ImageDiagram),
    KeywordEntry("vision", ImageDiagram),
    KeywordEntry("analyze image", ImageDiagram),
    KeywordEntry("gpt-4 vision", ImageDiagram),
    KeywordEntry("colleague lookup", ColleagueDiagram),
    KeywordEntry("colleague agent", ColleagueDiagram),
    KeywordEntry("find team", ColleagueDiagram),
    KeywordEntry("multi-step", ColleagueDiagram),
    KeywordEntry("aks network", AksDiagram),
    KeywordEntry("aks agent", AksDiagram),
    KeywordEntry("hybrid rag", AksDiagram),
    KeywordEntry("hybrid search", AksDiagram),
    KeywordEntry("dual source", AksDiagram),
    KeywordEntry("video search", VideoDiagram),
    KeywordEntry("video agent", VideoDiagram),
    KeywordEntry("timestamp", VideoDiagram),
    KeywordEntry("transcript", VideoDiagram),
    KeywordEntry("policy change", PolicyDiagram),
    KeywordEntry("policy agent", PolicyDiagram),
    KeywordEntry("policy detector", PolicyDiagram),
    KeywordEntry("semantic drift", PolicyDiagram),
    KeywordEntry("cost analytics", CostDiagram),
    KeywordEntry("cost agent", CostDiagram),
    KeywordEntry("cost tracking", CostDiagram),
    KeywordEntry("optimization", CostDiagram),
    KeywordEntry("main architecture", MainArchitecture),
    KeywordEntry("overall system", MainArchitecture),
    KeywordEntry("all agents", MainArchitecture),
    KeywordEntry("system design", MainArchitecture),
    KeywordEntry("langgraph", MainArchitecture)
  ]

  /** `feature_keywords`, in insertion order. */
  const FeatureKeywords: seq<KeywordEntry> := [
    KeywordEntry("image", ImageDiagram),
    KeywordEntry("colleague", ColleagueDiagram),
    KeywordEntry("aks", AksDiagram),
    KeywordEntry("video", VideoDiagram),
    KeywordEntry("policy", PolicyDiagram),
    KeywordEntry("cost", CostDiagram)
  ]

  const HowPhrases: seq<string> := ["how does", "how do", "workflow"]
  const ArchitectureWords: seq<string> := ["architecture", "system", "structure", "design", "layers"]

  /** At most this many diagrams are returned. */
  const DiagramCap: nat := 3

  /** Which file names exist under `diagrams/`. */
  type FileExists = string -> bool

  predicate NoDuplicates(s: seq<string>) {
    forall i, j :: 0 <= i < j < |s| ==> s[i] != s[j]
  }

  /** The membership test on `relevant` guarding every append. */
  function AddIfNew(relevant: seq<string>, file: string, exists_: FileExists): seq<string> {
    if exists_(file) && file !in relevant then relevant + [file] else relevant
  }

  /** One keyword pass: every entry whose keyword occurs in the query offers its file, in order. */
  function ScanKeywords(relevant: seq<string>, queryLower: string, entries: seq<KeywordEntry>,
                        exists_: FileExists): seq<string>
  {
    if entries == [] then relevant
    else
      var prev := ScanKeywords(relevant, queryLower, entries[..|entries| - 1], exists_);
      var e := entries[|entries| - 1];
      if Contains(queryLower, e.keyword) then AddIfNew(prev, e.file, exists_) else prev
  }

  predicate AsksHow(queryLower: string) {
    ContainsAny(queryLower, HowPhrases)
  }

  /** The whole accumulated selection, before the slice to three. */
  function Accumulated(queryLower: string, exists_: FileExists): seq<string> {
    var byKeyword := ScanKeywords([], queryLower, KeywordMap, exists_);
    var byFeature := if AsksHow(queryLower) then ScanKeywords(byKeyword, queryLower, FeatureKeywords, exists_)
                     else byKeyword;
    if byFeature == [] && ContainsAny(queryLower, ArchitectureWords) && exists_(MainArchitecture)
    then [MainArchitecture]
    else byFeature
  }

  /** One keyword pass of `_find_relevant_diagrams`. */
  method ScanKeywordPass(relevant: seq<string>, queryLower: string, entries: seq<KeywordEntry>,
                         exists_: FileExists) returns (r: seq<string>)
    ensures r == ScanKeywords(relevant, queryLower, entries, exists_)
  {
    r := relevant;
    for i := 0 to |entries|
      invariant r == ScanKeywords(relevant, queryLower, entries[..i], exists_)
    {
      assert entries[..i + 1][..i] == entries[..i];
      var e := entries[i];
      if Contains(queryLower, e.keyword) {
        if exists_(e.file) && e.file !in r {
          r := r + [e.file];
        }
      }
    }
    assert entries[..|entries|] == entries;
  }

  /** `_find_relevant_diagrams`: the selected file names, in selection order. */
  method FindRelevantDiagrams(dirExists: bool, exists_: FileExists, query: string) returns (relevant: seq<string>)
    ensures !dirExists ==> relevant == []
    ensures dirExists ==> relevant == Take(Accumulated(Lower(query), exists_), DiagramCap)
  {
    if !dirExists {
      return [];
    }
    var queryLower := Lower(query);
    relevant := ScanKeywordPass([], queryLower, KeywordMap, exists_);
    var asksHow := Contains(queryLower, "how does") || Contains(queryLower, "how do") || Contains(queryLower, "workflow");
    assert asksHow == AsksHow(queryLower) by {
      assert HowPhrases[0] == "how does" && HowPhrases[1] == "how do" && HowPhrases[2] == "workflow";
    }
    if asksHow {
      relevant := ScanKeywordPass(relevant, queryLower, FeatureKeywords, exists_);
    }
    if relevant == [] && ContainsAny(queryLower, ArchitectureWords) {
      if exists_(MainArchitecture) {
        relevant := relevant + [MainArchitecture];
      }
    }
    relevant := Take(relevant, DiagramCap);
  }

  /** A keyword pass only appends: what was selected stays, in place. */
  lemma {:induction false} ScanKeywordsExtends(relevant: seq<string>, queryLower: string,
                                               entries: seq<KeywordEntry>, exists_: FileExists)
    ensures relevant <= ScanKeywords(relevant, queryLower, entries, exists_)
  {
    if entries != [] {
      ScanKeywordsExtends(relevant, queryLower, entries[..|entries| - 1], exists_);
    }
  }

  /** A keyword pass never adds a file twice. */
  lemma {:induction false} ScanKeywordsNoDuplicates(relevant: seq<string>, queryLower: string,
                                                    entries: seq<KeywordEntry>, exists_: FileExists)
    requires NoDuplicates(relevant)
    ensures NoDuplicates(ScanKeywords(relevant, queryLower, entries, exists_))
  {
    if entries != [] {
      ScanKeywordsNoDuplicates(relevant, queryLower, entries[..|entries| - 1], exists_);
    }
  }

  /**
   * Exactly the files already selected, plus the existing files of the entries whose
   * keyword occurs in the query, end up in the selection.
   */
  lemma {:induction false} ScanKeywordsMembers(relevant: seq<string>, queryLower: string,
                                               entries: seq<KeywordEntry>, exists_: FileExists, f: string)
    ensures f in ScanKeywords(relevant, queryLower, entries, exists_) <==>
      f in relevant
      || (exists_(f) && exists k :: 0 <= k < |entries| && entries[k].file == f && Contains(queryLower, entries[k].keyword))
  {
    if entries != [] {
      var init := entries[..|entries| - 1];
      ScanKeywordsMembers(relevant, queryLower, init, exists_, f);
      if exists k :: 0 <= k < |init| && init[k].file == f && Contains(queryLower, init[k].keyword) {
        var k :| 0 <= k < |init| && init[k].file == f && Contains(queryLower, init[k].keyword);
        assert entries[k] == init[k];
      }
      if exists k :: 0 <= k < |entries| && entries[k].file == f && Contains(queryLower, entries[k].keyword) {
        var k :| 0 <= k < |entries| && entries[k].file == f && Contains(queryLower, entries[k].keyword);
        if k < |init| {
          assert init[k] == entries[k];
        }
      }
    }
  }

  /** Every selected file exists, no file is listed twice, and at most three are returned. */
  lemma SelectionWellFormed(queryLower: string, exists_: FileExists)
    ensures var all := Accumulated(queryLower, exists_);
      var r := Take(all, DiagramCap);
      && |r| <= 3
      && r <= all
      && NoDuplicates(r)
      && (forall f :: f in r ==> exists_(f))
  {
    var byKeyword := ScanKeywords([], queryLower, KeywordMap, exists_);
    ScanKeywordsNoDuplicates([], queryLower, KeywordMap, exists_);
    ScanKeywordsNoDuplicates(byKeyword, queryLower, FeatureKeywords, exists_);
    forall f | f in Accumulated(queryLower, exists_) ensures exists_(f) {
      ScanKeywordsMembers([], queryLower, KeywordMap, exists_, f);
      ScanKeywordsMembers(byKeyword, queryLower, FeatureKeywords, exists_, f);
    }
  }

  /** Without a "how" phrase the feature keywords play no part. */
  lemma FeatureKeywordsNeedHowPhrase(queryLower: string, exists_: FileExists, f: string)
    requires !AsksHow(queryLower)
    requires f in Accumulated(queryLower, exists_) && f != MainArchitecture
    ensures exists k :: 0 <= k < |KeywordMap| && KeywordMap[k].file == f && Contains(queryLower, KeywordMap[k].keyword)
  {
    ScanKeywordsMembers([], queryLower, KeywordMap, exists_, f);
  }

  /**
   * The main-architecture fallback fires exactly when neither pass selected anything,
   * an architecture word occurs and the main diagram exists.
   */
  lemma FallbackOnlyWhenNothingSelected(queryLower: string, exists_: FileExists)
    ensures var byKeyword := ScanKeywords([], queryLower, KeywordMap, exists_);
      var byFeature := if AsksHow(queryLower) then ScanKeywords(byKeyword, queryLower, FeatureKeywords, exists_)
                       else byKeyword;
      && (byFeature != [] ==> Accumulated(queryLower, exists_) == byFeature)
      && (byFeature == [] ==>
            (Accumulated(queryLower, exists_) != [] <==>
               ContainsAny(queryLower, ArchitectureWords) && exists_(MainArchitecture)))
  {
  }

  /** A keyword that occurs in the query selects its diagram whenever that file exists. */
  lemma KeywordSelectsDiagram(queryLower: string, exists_: FileExists, k: nat)
    requires k < |KeywordMap| && Contains(queryLower, KeywordMap[k].keyword) && exists_(KeywordMap[k].file)
    ensures KeywordMap[k].file in Accumulated(queryLower, exists_)
  {
    var f := KeywordMap[k].file;
    var byKeyword := ScanKeywords([], queryLower, KeywordMap, exists_);
    ScanKeywordsMembers([], queryLower, KeywordMap, exists_, f);
    ScanKeywordsExtends(byKeyword, queryLower, FeatureKeywords, exists_);
    if AsksHow(queryLower) {
      var byFeature := ScanKeywords(byKeyword, queryLower, FeatureKeywords, exists_);
      assert byFeature[..|byKeyword|] == byKeyword;
      assert f in byFeature;
    }
  }

  // ---------------------------------------------------------------------------
  // explain_with_architecture_diagram
  // ---------------------------------------------------------------------------

  /** What the vision model returns for the question and the chosen diagrams. */
  datatype VisionReply = VisionReply(content: string, totalTokens: nat)

  type VisionModel = (string, seq<string>) -> VisionReply

  const NoDiagramsAnswer := "No architecture diagrams found. Please ensure diagrams are in the 'diagrams/' folder."

  datatype Explanation =
    | NoDiagrams(answer: string, diagramsUsed: seq<string>)
    | Explained(answer: string, diagramsUsed: seq<string>, tokensUsed: nat)

  /** `explain_with_architecture_diagram`: the model is consulted only when some diagram applies. */
  method ExplainWithArchitectureDiagram(dirExists: bool, exists_: FileExists, vision: VisionModel, question: string)
    returns (r: Explanation)
    ensures var chosen := if dirExists then Take(Accumulated(Lower(question), exists_), DiagramCap) else [];
      && (chosen == [] ==> r == NoDiagrams(NoDiagramsAnswer, []))
      && (chosen != [] ==> r == Explained(vision(question, chosen).content, chosen,
                                          vision(question, chosen).totalTokens))
  {
    var relevant := FindRelevantDiagrams(dirExists, exists_, question);
    if relevant == [] {
      return NoDiagrams(NoDiagramsAnswer, []);
    }
    var response := vision(question, relevant);
    r := Explained(response.content, relevant, response.totalTokens);
  }

  /** The diagrams reported are those chosen, in selection order, with no file twice and at most three. */
  lemma ExplanationReportsSelection(dirExists: bool, exists_: FileExists, question: string)
    ensures var chosen := if dirExists then Take(Accumulated(Lower(question), exists_), DiagramCap) else [];
      && |chosen| <= 3
      && NoDuplicates(chosen)
      && (forall f :: f in chosen ==> exists_(f))
  {
    if dirExists {
      SelectionWellFormed(Lower(question), exists_);
    }
  }
}
