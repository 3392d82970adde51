/**
 * The deterministic parts of the AKS tools: ranking the built-in table of
 * simulated web results against a query, and matching IT service forms to a
 * topic by keyword. The forms file is an input (whether it exists, and its forms).
 */
module AksTools {
  import opened Text
  import opened Sorting

  // ---------------------------------------------------------------------------
  // search_web_for_aks_info
  // ---------------------------------------------------------------------------

  datatype WebResult = WebResult(title: string, url: string, snippet: string, relevance: string)

  /** A kept result with its `search_score`. */
  datatype ScoredResult = ScoredResult(result: WebResult, searchScore: nat)

  /** The five built-in results, in table order. */
  const SimulatedResults: seq<WebResult> := [
    WebResult(
      "Network concepts for AKS - Azure Kubernetes Service",
      "https://learn.microsoft.com/en-us/azure/aks/concepts-network",
      "Learn about networking in Azure Kubernetes Service (AKS), including kubenet and Azure CNI, ingress controllers, load balancers, and static IP addresses.",
      "high"),
    WebResult(
      "Configure Azure CNI networking - AKS",
      "https://learn.microsoft.com/en-us/azure/aks/configure-azure-cni",
      "Azure CNI is the default network plugin for AKS. Each pod gets an IP address from the subnet and can be accessed directly. Requires more IP addresses than kubenet.",
      "high"),
    WebResult(
      "Best practices for network connectivity - AKS",
      "https://learn.microsoft.com/en-us/azure/aks/operator-best-practices-network",
      "Best practices for network resources and connectivity in AKS. Covers NSG rules, private endpoints, network policies, and egress traffic control.",
      "high"),
    WebResult(
      "Use a private endpoint with Azure Kubernetes Service",
      "https://learn.microsoft.com/en-us/azure/aks/private-clusters",
      "Create an AKS cluster with a private endpoint to ensure network traffic between your API server and node pools remains on the private network only.",
      "medium"),
    WebResult(
      "Network security groups (NSG) in Azure - Overview",
      "https://learn.microsoft.com/en-us/azure/virtual-network/network-security-groups-overview",
      "Network security groups filter network traffic between Azure resources in a virtual network. NSG contains security rules that allow or deny traffic based on protocol, port, and address.",
      "medium")
  ]

  const SecurityTerms: seq<string> := ["nsg", "security group", "firewall"]
  const PrivateTerms: seq<string> := ["private", "endpoint", "api server"]

  /** At most this many web results are returned. */
  const WebResultCap: nat := 3

  /** The score of one result for the lower-cased query. */
  function WebScore(queryLower: string, r: WebResult): nat {
    (if ContainsAny(queryLower, SecurityTerms)
        && (Contains(Lower(r.title), "nsg") || Contains(Lower(r.snippet), "security")) then 2 else 0)
    + (if ContainsAny(queryLower, PrivateTerms) && Contains(Lower(r.title), "private") then 2 else 0)
    + (if Contains(queryLower, "cni") && Contains(Lower(r.title), "cni") then 3 else 0)
  }

  predicate Kept(s: ScoredResult) {
    s.searchScore > 0 || s.result.relevance == "high"
  }

  /** `relevant_results` before sorting: the kept results with their scores, in table order. */
  function Relevant(queryLower: string, table: seq<WebResult>): seq<ScoredResult> {
    if table == [] then []
    else
      var r := table[|table| - 1];
      var s := ScoredResult(r, WebScore(queryLower, r));
      Relevant(queryLower, table[..|table| - 1]) + (if Kept(s) then [s] else [])
  }

  function ScoreKey(s: ScoredResult): real {
    s.searchScore as real
  }

  /** The scoring statements of the loop in `search_web_for_aks_info`. */
  method ScoreWebResult(queryLower: string, result: WebResult) returns (score: nat)
    ensures score == WebScore(queryLower, result)
    ensures score <= 7
  {
    score := 0;
    if ContainsAny(queryLower, SecurityTerms) {
      if Contains(Lower(result.title), "nsg") || Contains(Lower(result.snippet), "security") {
        score := score + 2;
      }
    }
    if ContainsAny(queryLower, PrivateTerms) {
      if Contains(Lower(result.title), "private") {
        score := score + 2;
      }
    }
    if Contains(queryLower, "cni") && Contains(Lower(result.title), "cni") {
      score := score + 3;
    }
  }

  /** `search_web_for_aks_info`: the results and their count. */
  method SearchWebForAksInfo(query: string) returns (results: seq<ScoredResult>, count: nat)
    ensures results == Take(SortDesc(Relevant(Lower(query), SimulatedResults), ScoreKey), WebResultCap)
    ensures count == |results| && count <= 3
  {
    var relevant := ScoreResults(Lower(query), SimulatedResults);
    var sorted := SortDesc(relevant, ScoreKey);
    results := Take(sorted, WebResultCap);
    count := |results|;
  }

  /** The loop of `search_web_for_aks_info` over a table of results. */
  method ScoreResults(queryLower: string, table: seq<WebResult>) returns (relevant: seq<ScoredResult>)
    ensures relevant == Relevant(queryLower, table)
  {
    relevant := [];
    for i := 0 to |table|
      invariant relevant == Relevant(queryLower, table[..i])
    {
      var result := table[i];
      assert table[..i + 1][..i] == table[..i];
      var score := ScoreWebResult(queryLower, result);
      if score > 0 || result.relevance == "high" {
        relevant := relevant + [ScoredResult(result, score)];
      }
    }
    assert table[..|table|] == table;
  }

  /** A result is kept exactly when it scores or is of high relevance. */
  lemma {:induction false} RelevantExactly(queryLower: string, table: seq<WebResult>)
    ensures forall s :: s in Relevant(queryLower, table) <==>
      s.result in table && s.searchScore == WebScore(queryLower, s.result) && Kept(s)
  {
    if table != [] {
      var init := table[..|table| - 1];
      RelevantExactly(queryLower, init);
      assert table == init + [table[|table| - 1]];
    }
  }

  /**
   * The returned results are the best-scoring kept ones: sorted by score, and no
   * kept result left out scores higher than any returned one. This holds for any
   * table, the built-in one included.
   */
  lemma WebResultsRanked(queryLower: string, table: seq<WebResult>)
    ensures var rel := Relevant(queryLower, table);
      var sorted := SortDesc(rel, ScoreKey);
      var res := Take(sorted, WebResultCap);
      && multiset(sorted) == multiset(rel)
      && (forall i, j :: 0 <= i < j < |res| ==> res[i].searchScore >= res[j].searchScore)
      && (forall i, j :: 0 <= i < |res| <= j < |sorted| ==> res[i].searchScore >= sorted[j].searchScore)
      && |res| == (if |rel| < 3 then |rel| else 3)
  {
    var rel := Relevant(queryLower, table);
    var sorted := SortDesc(rel, ScoreKey);
    var res := Take(sorted, WebResultCap);
    assert multiset(sorted) == multiset(rel) && |sorted| == |rel| && SortedDesc(sorted, ScoreKey) by {
      SortDescCorrect(rel, ScoreKey);
    }
    assert res == sorted[..|res|];
    forall i, j | 0 <= i < |res| && i < j < |sorted|
      ensures res[i].searchScore >= sorted[j].searchScore
    {
      assert res[i] == sorted[i];
      assert ScoreKey(sorted[i]) >= ScoreKey(sorted[j]);
    }
  }

  /** Results with equal scores keep their table order, for any table. */
  lemma WebResultsStable(queryLower: string, table: seq<WebResult>, score: nat)
    ensures var rel := Relevant(queryLower, table);
      WithKey(SortDesc(rel, ScoreKey), ScoreKey, score as real) == WithKey(rel, ScoreKey, score as real)
  {
    SortDescStable(Relevant(queryLower, table), ScoreKey, score as real);
  }

  /** A query mentioning no scoring keyword gets the three high-relevance entries in table order. */
  lemma NoKeywordQuery(query: string)
    requires !ContainsAny(Lower(query), SecurityTerms)
    requires !ContainsAny(Lower(query), PrivateTerms)
    requires !Contains(Lower(query), "cni")
    ensures var res := Take(SortDesc(Relevant(Lower(query), SimulatedResults), ScoreKey), WebResultCap);
      res == [ScoredResult(SimulatedResults[0], 0), ScoredResult(SimulatedResults[1], 0),
              ScoredResult(SimulatedResults[2], 0)]
  {
    var t := SimulatedResults;
    assert |t| == 5;
    assert t[0].relevance == "high" && t[1].relevance == "high" && t[2].relevance == "high";
    assert t[3].relevance == "medium" && t[4].relevance == "medium";
    UnscoredTable(Lower(query), t);
  }

  /**
   * With nothing scoring, a table of three high-relevance entries followed by two
   * others yields the three, unsorted and in table order.
   */
  lemma UnscoredTable(q: string, t: seq<WebResult>)
    requires !ContainsAny(q, SecurityTerms) && !ContainsAny(q, PrivateTerms) && !Contains(q, "cni")
    requires |t| == 5
    requires t[0].relevance == "high" && t[1].relevance == "high" && t[2].relevance == "high"
    requires t[3].relevance != "high" && t[4].relevance != "high"
    ensures Take(SortDesc(Relevant(q, t), ScoreKey), WebResultCap)
         == [ScoredResult(t[0], 0), ScoredResult(t[1], 0), ScoredResult(t[2], 0)]
  {
    assert Relevant(q, t[..0]) == [];
    assert t[..1][..0] == t[..0];
    assert Relevant(q, t[..1]) == [ScoredResult(t[0], 0)];
    assert t[..2][..1] == t[..1];
    assert Relevant(q, t[..2]) == [ScoredResult(t[0], 0), ScoredResult(t[1], 0)];
    assert t[..3][..2] == t[..2];
    assert Relevant(q, t[..3]) == [ScoredResult(t[0], 0), ScoredResult(t[1], 0), ScoredResult(t[2], 0)];
    assert t[..4][..3] == t[..3];
    assert Relevant(q, t[..4]) == Relevant(q, t[..3]);
    assert t[..5][..4] == t[..4];
    assert t[..5] == t;
    var rel := Relevant(q, t);
    assert rel == Relevant(q, t[..3]);
    SortDescConstantKey(rel, ScoreKey, 0.0);
  }

  // ---------------------------------------------------------------------------
  // suggest_it_forms
  // ---------------------------------------------------------------------------

  /** One form of the forms file; its other fields are carried along unchanged. */
  datatype ItForm = ItForm(formId: string, requiredFor: seq<string>)

  datatype MatchedForm = MatchedForm(form: ItForm, matchScore: nat)

  datatype FormSuggestion =
    | FormsDatabaseMissing   // `found: False` with the message "IT forms database not found"
    | Suggested(found: bool, forms: seq<MatchedForm>, count: nat)

  /** At most this many forms are listed. */
  const FormCap: nat := 3

  predicate KeywordMatches(topicLower: string, keyword: string) {
    Contains(topicLower, Lower(keyword)) || Contains(Lower(keyword), topicLower)
  }

  /** `match_score`: the number of the form's keywords that match the topic. */
  function MatchScore(topicLower: string, keywords: seq<string>): (n: nat)
    ensures n <= |keywords|
  {
    if keywords == [] then 0
    else
      MatchScore(topicLower, keywords[..|keywords| - 1])
        + (if KeywordMatches(topicLower, keywords[|keywords| - 1]) then 1 else 0)
  }

  /** `matched_forms` before sorting: the forms with a positive score, in file order. */
  function Matched(topicLower: string, forms: seq<ItForm>): seq<MatchedForm> {
    if forms == [] then []
    else
      var f := forms[|forms| - 1];
      var score := MatchScore(topicLower, f.requiredFor);
      Matched(topicLower, forms[..|forms| - 1]) + (if score > 0 then [MatchedForm(f, score)] else [])
  }

  function MatchKey(m: MatchedForm): real {
    m.matchScore as real
  }

  /** `suggest_it_forms`. */
  method SuggestItForms(formsExist: bool, forms: seq<ItForm>, topic: string) returns (r: FormSuggestion)
    ensures !formsExist ==> r == FormsDatabaseMissing
    ensures formsExist ==>
      var matched := Matched(Lower(topic), forms);
      && r.Suggested?
      && r.count == |matched|
      && r.found == (|matched| > 0)
      && r.forms == Take(SortDesc(matched, MatchKey), FormCap)
  {
    if !formsExist {
      return FormsDatabaseMissing;
    }
    var topicLower := Lower(topic);
    var matched: seq<MatchedForm> := [];
    for i := 0 to |forms|
      invariant matched == Matched(topicLower, forms[..i])
    {
      var form := forms[i];
      assert forms[..i + 1][..i] == forms[..i];
      var matchScore := ScoreForm(topicLower, form.requiredFor);
      if matchScore > 0 {
        matched := matched + [MatchedForm(form, matchScore)];
      }
    }
    assert forms[..|forms|] == forms;
    var sorted := SortDesc(matched, MatchKey);
    r := Suggested(|matched| > 0, Take(sorted, FormCap), |matched|);
  }

  /** The inner loop of `suggest_it_forms`: one form's keywords counted against the topic. */
  method ScoreForm(topicLower: string, keywords: seq<string>) returns (matchScore: nat)
    ensures matchScore == MatchScore(topicLower, keywords)
  {
    matchScore := 0;
    for k := 0 to |keywords|
      invariant matchScore == MatchScore(topicLower, keywords[..k])
    {
      var keyword := keywords[k];
      assert keywords[..k + 1][..k] == keywords[..k];
      if Contains(topicLower, Lower(keyword)) || Contains(Lower(keyword), topicLower) {
        matchScore := matchScore + 1;
      }
    }
    assert keywords[..|keywords|] == keywords;
  }

  /** A form is matched exactly when at least one of its keywords matches the topic. */
  lemma {:induction false} MatchedExactly(topicLower: string, forms: seq<ItForm>)
    ensures forall m :: m in Matched(topicLower, forms) <==>
      m.form in forms && m.matchScore == MatchScore(topicLower, m.form.requiredFor) && m.matchScore > 0
  {
    if forms != [] {
      var init := forms[..|forms| - 1];
      MatchedExactly(topicLower, init);
      assert forms == init + [forms[|forms| - 1]];
    }
  }

  /** The score is positive exactly when some keyword matches. */
  lemma {:induction false} MatchScorePositive(topicLower: string, keywords: seq<string>)
    ensures MatchScore(topicLower, keywords) > 0 <==>
      exists k :: 0 <= k < |keywords| && KeywordMatches(topicLower, keywords[k])
  {
    if keywords != [] {
      var init := keywords[..|keywords| - 1];
      MatchScorePositive(topicLower, init);
      if MatchScore(topicLower, init) > 0 {
        var k :| 0 <= k < |init| && KeywordMatches(topicLower, init[k]);
        assert keywords[k] == init[k];
      }
      if exists k :: 0 <= k < |keywords| && KeywordMatches(topicLower, keywords[k]) {
        var k :| 0 <= k < |keywords| && KeywordMatches(topicLower, keywords[k]);
        if k < |init| {
          assert init[k] == keywords[k];
        }
      }
    }
  }

  /** An empty topic is contained in every keyword, so every keyword counts. */
  lemma {:induction false} EmptyTopicMatchesEveryKeyword(keywords: seq<string>)
    ensures MatchScore("", keywords) == |keywords|
  {
    if keywords != [] {
      EmptyTopicMatchesEveryKeyword(keywords[..|keywords| - 1]);
      ContainsEmpty(Lower(keywords[|keywords| - 1]));
    }
  }

  /** The listed forms are the best-scoring matches, while `count` counts all matches. */
  lemma FormsRanked(topic: string, forms: seq<ItForm>)
    ensures var matched := Matched(Lower(topic), forms);
      var sorted := SortDesc(matched, MatchKey);
      var top := Take(sorted, FormCap);
      && |top| == (if |matched| < 3 then |matched| else 3)
      && multiset(sorted) == multiset(matched)
      && (forall i, j :: 0 <= i < j < |top| ==> top[i].matchScore >= top[j].matchScore)
      && (forall i, j :: 0 <= i < |top| <= j < |sorted| ==> top[i].matchScore >= sorted[j].matchScore)
  {
    var matched := Matched(Lower(topic), forms);
    var sorted := SortDesc(matched, MatchKey);
    var top := Take(sorted, FormCap);
    assert multiset(sorted) == multiset(matched) && |sorted| == |matched| && SortedDesc(sorted, MatchKey) by {
      SortDescCorrect(matched, MatchKey);
    }
    assert top == sorted[..|top|];
    forall i, j | 0 <= i < |top| && i < j < |sorted|
      ensures top[i].matchScore >= sorted[j].matchScore
    {
      assert top[i] == sorted[i];
      assert MatchKey(sorted[i]) >= MatchKey(sorted[j]);
    }
  }
}
