/**
 * The two computed parts of the cost analytics: the optimisation recommendations
 * with their capped total, and the ranking of features by efficiency score. Whether
 * the query log exists and the per-feature aggregates it yields are inputs; a SQL
 * NULL is `None`.
 */
module CostAnalytics {
  import opened Wrappers
  import opened Sorting
  import opened CostUtils

  // ---------------------------------------------------------------------------
  // generate_optimization_recommendations
  // ---------------------------------------------------------------------------

  datatype Recommendation = Recommendation(
    title: string,
    percent: nat,
    monthlySaving: real,
    annualSaving: Option<real>,
    difficulty: string)

  /** Daily queries per user and user count of the baseline the savings are measured against. */
  const BaselineQueriesPerUser: int := 5
  const BaselineUsers: int := 300000

  /** The combined saving is never claimed above this percentage. */
  const SavingsCap: nat := 70

  const TotalTitle := " TOTAL POTENTIAL SAVINGS"

  /** The projected monthly cost for 300,000 users at five queries a day each. */
  function Baseline(avgCost: real): real {
    ProjectMonthlyCost(avgCost, BaselineQueriesPerUser, BaselineUsers).value.monthlyCost
  }

  function Saving(percent: nat, baseline: real): real {
    baseline * (percent as real / 100.0)
  }

  function SumPercents(rs: seq<Recommendation>): nat {
    if rs == [] then 0 else SumPercents(rs[..|rs| - 1]) + rs[|rs| - 1].percent
  }

  function Min(a: nat, b: nat): nat {
    if a <= b then a else b
  }

  /** `generate_optimization_recommendations`: five fixed strategies, then the capped total. */
  method GenerateOptimizationRecommendations(avgCost: real) returns (recs: seq<Recommendation>)
    ensures |recs| == 6
    ensures var b := Baseline(avgCost);
      && recs[0].percent == 40 && recs[0].monthlySaving == Saving(40, b)
      && recs[1].percent == 15 && recs[1].monthlySaving == Saving(15, b)
      && recs[2].percent == 0 && recs[2].monthlySaving == 0.0
      && recs[3].percent == 20 && recs[3].monthlySaving == Saving(20, b)
      && recs[4].percent == 25 && recs[4].monthlySaving == Saving(25, b)
    ensures recs[5].title == TotalTitle
    ensures recs[5].percent == Min(SumPercents(recs[..5]), SavingsCap)
    ensures recs[5].monthlySaving == Saving(recs[5].percent, Baseline(avgCost))
    ensures recs[5].annualSaving == Some(12.0 * recs[5].monthlySaving)
    ensures forall i :: 0 <= i < 5 ==> recs[i].annualSaving.None?
  {
    var baseline := Baseline(avgCost);
    recs := [];
    recs := recs + [Recommendation("Implement Intelligent Model Routing", 40, Saving(40, baseline), None, "Medium")];
    recs := recs + [Recommendation("Implement Embedding Cache", 15, Saving(15, baseline), None, "Low")];
    recs := recs + [Recommendation("Enable Response Streaming", 0, 0.0, None, "Low")];
    recs := recs + [Recommendation("Optimize Prompt Engineering", 20, Saving(20, baseline), None, "Medium")];
    recs := recs + [Recommendation("Implement Semantic Caching", 25, Saving(25, baseline), None, "High")];
    var totalPercent := Min(SumPercents(recs), SavingsCap);
    var totalSaving := Saving(totalPercent, baseline);
    assert recs[..5] == recs;
    recs := recs + [Recommendation(TotalTitle, totalPercent, totalSaving, Some(totalSaving * 12.0), "High")];
  }

  /**
   * The individual percents add up to 100, so the cap decides the total: 70 percent,
   * a saving of 0.7 of the baseline a month, which is less than the five savings
   * together whenever the baseline is positive.
   */
  lemma TotalIsCapped(recs: seq<Recommendation>, avgCost: real)
    requires |recs| == 6
    requires recs[0].percent == 40 && recs[1].percent == 15 && recs[2].percent == 0
    requires recs[3].percent == 20 && recs[4].percent == 25
    requires recs[5].percent == Min(SumPercents(recs[..5]), SavingsCap)
    requires forall i :: 0 <= i < 6 && i != 2 ==> recs[i].monthlySaving == Saving(recs[i].percent, Baseline(avgCost))
    requires recs[2].monthlySaving == 0.0
    ensures SumPercents(recs[..5]) == 100
    ensures recs[5].percent == 70
    ensures recs[5].monthlySaving == 0.7 * Baseline(avgCost)
    ensures Baseline(avgCost) == 45000000.0 * avgCost
    ensures avgCost > 0.0 ==>
      recs[5].monthlySaving < recs[0].monthlySaving + recs[1].monthlySaving + recs[2].monthlySaving
                              + recs[3].monthlySaving + recs[4].monthlySaving
  {
    var p := recs[..5];
    assert p[..4] == recs[..4] && p[4] == recs[4];
    assert recs[..4][..3] == recs[..3] && recs[..3][..2] == recs[..2] && recs[..2][..1] == recs[..1];
    assert SumPercents(recs[..1]) == 40;
    assert SumPercents(recs[..2]) == 55;
    assert SumPercents(recs[..3]) == 55;
    assert SumPercents(recs[..4]) == 75;
    ProjectionConsistent(avgCost, BaselineQueriesPerUser, BaselineUsers);
  }

  // ---------------------------------------------------------------------------
  // get_feature_efficiency_analysis
  // ---------------------------------------------------------------------------

  /** One row of the per-feature aggregate query. */
  datatype FeatureStats = FeatureStats(
    feature: string,
    queries: nat,
    avgCost: Option<real>,
    avgLatency: Option<real>,
    successRate: Option<real>)

  datatype FeatureEfficiency = FeatureEfficiency(
    feature: string,
    queries: nat,
    avgCostUsd: real,
    avgLatencyMs: real,
    successRate: real,
    efficiencyScore: real)

  /** Python's `x or default` on a number: NULL and zero both fall back. */
  function OrDefault(x: Option<real>, default: real): real {
    if x.None? || x.value == 0.0 then default else x.value
  }

  /** The success rate with the corrected default: only a NULL rate counts as full success. */
  function SuccessRate(x: Option<real>): real {
    if x.None? then 1.0 else x.value
  }

  /** `failure_penalty` as written: a rate of 0.0 is falsy and is replaced by 1. */
  function FailurePenaltyAsWritten(successRate: Option<real>): real {
    (1.0 - OrDefault(successRate, 1.0)) * 10.0
  }

  /** `failure_penalty` with the default applied to a NULL rate only. */
  function FailurePenalty(successRate: Option<real>): real {
    (1.0 - SuccessRate(successRate)) * 10.0
  }

  /** A feature whose every query failed is not penalised at all. */
  lemma AllFailingFeatureUnpenalised()
    ensures FailurePenaltyAsWritten(Some(0.0)) == 0.0
    ensures FailurePenaltyAsWritten(Some(0.0)) < FailurePenaltyAsWritten(Some(0.5))
  {
  }

  /** The corrected penalty grows as the success rate falls, and a total failure costs the most. */
  lemma FailurePenaltyMonotone(a: real, b: real)
    requires 0.0 <= a <= b <= 1.0
    ensures FailurePenalty(Some(a)) >= FailurePenalty(Some(b))
    ensures FailurePenalty(Some(0.0)) == 10.0 && FailurePenalty(Some(1.0)) == 0.0
    ensures FailurePenalty(None) == 0.0
  {
  }

  /** `efficiency_score` as written, lower being better, with every `or` default. */
  function EfficiencyScore(s: FeatureStats): real {
    OrDefault(s.avgCost, 0.01) * 1000.0 + OrDefault(s.avgLatency, 1000.0) / 1000.0
      + FailurePenaltyAsWritten(s.successRate)
  }

  /** The entry appended for one row; its success rate is `success_rate or 1`, as written. */
  function Efficiency(s: FeatureStats): FeatureEfficiency {
    FeatureEfficiency(s.feature, s.queries, OrDefault(s.avgCost, 0.0), OrDefault(s.avgLatency, 0.0),
                      OrDefault(s.successRate, 1.0), EfficiencyScore(s))
  }

  /** The score with the corrected failure penalty: an all-failing feature is penalised fully. */
  function EfficiencyScoreIntended(s: FeatureStats): real {
    OrDefault(s.avgCost, 0.01) * 1000.0 + OrDefault(s.avgLatency, 1000.0) / 1000.0 + FailurePenalty(s.successRate)
  }

  /** The entry with the corrected rate and score: a rate of 0.0 is reported as 0.0. */
  function EfficiencyIntended(s: FeatureStats): FeatureEfficiency {
    FeatureEfficiency(s.feature, s.queries, OrDefault(s.avgCost, 0.0), OrDefault(s.avgLatency, 0.0),
                      SuccessRate(s.successRate), EfficiencyScoreIntended(s))
  }

  /** The rows in query order, before sorting. */
  function Efficiencies(rows: seq<FeatureStats>): (r: seq<FeatureEfficiency>)
    ensures |r| == |rows|
    ensures forall i :: 0 <= i < |rows| ==> r[i] == Efficiency(rows[i])
  {
    seq(|rows|, i requires 0 <= i < |rows| => Efficiency(rows[i]))
  }

  /** An ascending sort is the stable descending sort on the negated key. */
  function NegatedScore(f: FeatureEfficiency): real {
    -f.efficiencyScore
  }

  datatype EfficiencyAnalysis = EfficiencyAnalysis(
    features: seq<FeatureEfficiency>,
    mostEfficient: Option<FeatureEfficiency>,
    leastEfficient: Option<FeatureEfficiency>)

  /** The `{"error": "No data available"}` dictionary for a missing query log. */
  datatype EfficiencyError = NoDataAvailable

  /**
   * `get_feature_efficiency_analysis`: whether the query log exists, and the
   * aggregate rows its query returns.
   */
  method AnalyzeFeatureEfficiency(logExists: bool, rows: seq<FeatureStats>)
    returns (r: Result<EfficiencyAnalysis, EfficiencyError>)
    ensures !logExists <==> r == Failure(NoDataAvailable)
    ensures r.Success? ==>
      && r.value.features == SortDesc(Efficiencies(rows), NegatedScore)
      && (rows == [] <==> r.value.mostEfficient.None?)
      && (rows == [] <==> r.value.leastEfficient.None?)
      && (rows != [] ==>
            && r.value.mostEfficient == Some(r.value.features[0])
            && r.value.leastEfficient == Some(r.value.features[|r.value.features| - 1]))
  {
    if !logExists {
      return Failure(NoDataAvailable);
    }
    var features: seq<FeatureEfficiency> := [];
    for i := 0 to |rows|
      invariant features == Efficiencies(rows[..i])
    {
      features := features + [Efficiency(rows[i])];
    }
    assert rows[..|rows|] == rows;
    SortDescCorrect(features, NegatedScore);
    features := SortDesc(features, NegatedScore);
    if features == [] {
      r := Success(EfficiencyAnalysis(features, None, None));
    } else {
      r := Success(EfficiencyAnalysis(features, Some(features[0]), Some(features[|features| - 1])));
    }
  }

  /**
   * The ranking lists every feature once, in ascending score, keeping query order
   * among equal scores; the most efficient has the lowest score and the least
   * efficient the highest.
   */
  lemma RankingOrdered(rows: seq<FeatureStats>, score: real)
    ensures var ranked := SortDesc(Efficiencies(rows), NegatedScore);
      && multiset(ranked) == multiset(Efficiencies(rows))
      && Ascending(ranked)
      && (rows != [] ==> Bracketed(ranked))
      && WithKey(ranked, NegatedScore, -score) == WithKey(Efficiencies(rows), NegatedScore, -score)
  {
    Ranked(Efficiencies(rows), score);
  }

  /** The ranking facts for any list of features. */
  lemma Ranked(e: seq<FeatureEfficiency>, score: real)
    ensures var ranked := SortDesc(e, NegatedScore);
      && multiset(ranked) == multiset(e)
      && Ascending(ranked)
      && (e != [] ==> Bracketed(ranked))
      && WithKey(ranked, NegatedScore, -score) == WithKey(e, NegatedScore, -score)
  {
    var ranked := SortDesc(e, NegatedScore);
    assert WithKey(ranked, NegatedScore, -score) == WithKey(e, NegatedScore, -score) by {
      SortDescStable(e, NegatedScore, -score);
    }
    assert multiset(ranked) == multiset(e) && Ascending(ranked) && (e != [] ==> Bracketed(ranked)) by {
      SortDescCorrect(e, NegatedScore);
      AscendingFromNegated(ranked);
      if e != [] {
        AscendingExtremes(ranked);
      }
    }
  }

  predicate Ascending(ranked: seq<FeatureEfficiency>) {
    forall i, j :: 0 <= i < j < |ranked| ==> ranked[i].efficiencyScore <= ranked[j].efficiencyScore
  }

  lemma AscendingFromNegated(ranked: seq<FeatureEfficiency>)
    requires SortedDesc(ranked, NegatedScore)
    ensures Ascending(ranked)
  {
    forall i, j | 0 <= i < j < |ranked| ensures ranked[i].efficiencyScore <= ranked[j].efficiencyScore {
      assert NegatedScore(ranked[i]) >= NegatedScore(ranked[j]);
    }
  }

  /** The first element has the lowest score and the last the highest. */
  predicate Bracketed(ranked: seq<FeatureEfficiency>)
    requires ranked != []
  {
    forall f :: f in ranked ==> ranked[0].efficiencyScore <= f.efficiencyScore <= ranked[|ranked| - 1].efficiencyScore
  }

  lemma AscendingExtremes(ranked: seq<FeatureEfficiency>)
    requires Ascending(ranked) && ranked != []
    ensures Bracketed(ranked)
  {
    forall f | f in ranked
      ensures ranked[0].efficiencyScore <= f.efficiencyScore <= ranked[|ranked| - 1].efficiencyScore
    {
      var i :| 0 <= i < |ranked| && ranked[i] == f;
    }
  }

  /**
   * As written, a feature whose every query failed scores and reports exactly like an
   * identical one whose every query succeeded.
   */
  lemma AllFailingScoresAsAllSucceeding(s: FeatureStats)
    ensures Efficiency(s.(successRate := Some(0.0))) == Efficiency(s.(successRate := Some(1.0)))
    ensures Efficiency(s.(successRate := Some(0.0))).successRate == 1.0
  {
  }

  /**
   * As written, a cheap feature that always fails is ranked most efficient ahead of a
   * slightly dearer one that always succeeds, though its corrected score is the worse.
   */
  lemma AllFailingFeatureRankedFirst()
    ensures var a := FeatureStats("a", 1, Some(0.02), Some(500.0), Some(0.0));
      var b := FeatureStats("b", 1, Some(0.025), Some(500.0), Some(1.0));
      && SortDesc(Efficiencies([a, b]), NegatedScore) == [Efficiency(a), Efficiency(b)]
      && Efficiency(a).successRate == 1.0
      && EfficiencyScoreIntended(a) > EfficiencyScoreIntended(b)
  {
    var a := FeatureStats("a", 1, Some(0.02), Some(500.0), Some(0.0));
    var b := FeatureStats("b", 1, Some(0.025), Some(500.0), Some(1.0));
    var e := Efficiencies([a, b]);
    assert e[..1] == [Efficiency(a)];
    assert SortDesc(e[..1], NegatedScore) == [Efficiency(a)];
    assert NegatedScore(Efficiency(a)) >= NegatedScore(Efficiency(b));
    assert e == [Efficiency(a), Efficiency(b)];
    assert Insert([Efficiency(a)], Efficiency(b), NegatedScore) == [Efficiency(a)] + Insert([], Efficiency(b), NegatedScore);
    assert SortDesc(e, NegatedScore) == Insert(SortDesc(e[..1], NegatedScore), e[1], NegatedScore);
  }

  /**
   * Under the corrected penalty, a feature that always fails scores 10 worse than an
   * identical one that never does, and its rate is reported as 0.0.
   */
  lemma FailuresRankLower(s: FeatureStats)
    ensures EfficiencyScoreIntended(s.(successRate := Some(0.0)))
         == EfficiencyScoreIntended(s.(successRate := Some(1.0))) + 10.0
    ensures EfficiencyIntended(s.(successRate := Some(0.0))).successRate == 0.0
  {
  }
}
