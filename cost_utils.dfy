/**
 * Cost arithmetic: the per-million-token price table, the cost of a call, the
 * monthly projection at scale, the token estimate and the cheaper-model hint.
 * Amounts are exact reals; the rounding applied to returned values is not modelled.
 */
module CostUtils {
  import opened Wrappers

  /** USD per million tokens. */
  datatype Pricing = Pricing(input: real, output: real)

  const ModelPricing: map<string, Pricing> := map[
    "gpt-4o" := Pricing(2.5, 10.0),
    "gpt-4o-mini" := Pricing(0.15, 0.6),
    "gpt-4-turbo" := Pricing(10.0, 30.0),
    "gpt-3.5-turbo" := Pricing(0.5, 1.5),
    "text-embedding-3-small" := Pricing(0.02, 0.0),
    "text-embedding-3-large" := Pricing(0.13, 0.0)
  ]

  /** The fallback for an unknown chat model: the gpt-4o rates, written out again. */
  const DefaultChatPricing := Pricing(2.5, 10.0)

  /** The fallback for an unknown embedding model. */
  const DefaultEmbeddingPricing := Pricing(0.02, 0.0)

  const PerMillion: real := 1000000.0

  function PricingOr(model: string, default: Pricing): Pricing {
    if model in ModelPricing then ModelPricing[model] else default
  }

  /** `calculate_cost`, before rounding. */
  function CalculateCost(model: string, tokensIn: int, tokensOut: int): real {
    var p := PricingOr(model, DefaultChatPricing);
    (tokensIn as real * p.input / PerMillion) + (tokensOut as real * p.output / PerMillion)
  }

  /** `calculate_embedding_cost`, before rounding: only the input rate counts. */
  function CalculateEmbeddingCost(model: string, tokens: int): real {
    tokens as real * PricingOr(model, DefaultEmbeddingPricing).input / PerMillion
  }

  /** Any model missing from the table costs exactly what gpt-4o costs. */
  lemma UnknownModelPricedAsGpt4o(model: string, tokensIn: int, tokensOut: int)
    requires model !in ModelPricing
    ensures CalculateCost(model, tokensIn, tokensOut) == CalculateCost("gpt-4o", tokensIn, tokensOut)
    ensures CalculateCost(model, tokensIn, tokensOut) == (tokensIn as real * 2.5 + tokensOut as real * 10.0) / PerMillion
  {
  }

  /** Cost is linear in the token counts: two calls cost what one call with both counts costs. */
  lemma CostIsLinear(model: string, in1: int, out1: int, in2: int, out2: int)
    ensures CalculateCost(model, in1 + in2, out1 + out2)
         == CalculateCost(model, in1, out1) + CalculateCost(model, in2, out2)
    ensures CalculateCost(model, 0, 0) == 0.0
  {
    var p := PricingOr(model, DefaultChatPricing);
    assert (in1 + in2) as real * p.input == in1 as real * p.input + in2 as real * p.input;
    assert (out1 + out2) as real * p.output == out1 as real * p.output + out2 as real * p.output;
  }

  /** Every rate is non-negative, so no call costs less than nothing. */
  lemma CostNonNegative(model: string, tokensIn: nat, tokensOut: nat)
    ensures CalculateCost(model, tokensIn, tokensOut) >= 0.0
    ensures CalculateEmbeddingCost(model, tokensIn) >= 0.0
  {
    var p := PricingOr(model, DefaultChatPricing);
    assert p.input >= 0.0 && p.output >= 0.0;
    assert tokensIn as real * p.input >= 0.0;
    assert tokensOut as real * p.output >= 0.0;
    var e := PricingOr(model, DefaultEmbeddingPricing);
    assert e.input >= 0.0;
    assert tokensIn as real * e.input >= 0.0;
  }

  /** An unknown embedding model is priced at 0.02 per million tokens; the output rate never counts. */
  lemma EmbeddingDefaultRate(model: string, tokens: int)
    requires model !in ModelPricing
    ensures CalculateEmbeddingCost(model, tokens) == tokens as real * 0.02 / PerMillion
    ensures CalculateEmbeddingCost(model, tokens) == CalculateEmbeddingCost("text-embedding-3-small", tokens)
  {
  }

  // ---------------------------------------------------------------------------
  // project_monthly_cost
  // ---------------------------------------------------------------------------

  datatype Projection = Projection(
    dailyQueries: int,
    monthlyQueries: int,
    monthlyCost: real,
    costPerUserPerMonth: real,
    annualCost: real)

  /** The `ZeroDivisionError` raised for zero users. */
  datatype ProjectionError = DivisionByZero

  const DaysPerMonth: int := 30
  const MonthsPerYear: int := 12

  /** `project_monthly_cost`, before rounding. */
  function ProjectMonthlyCost(avgCostPerQuery: real, queriesPerUserPerDay: int, numUsers: int)
    : (r: Result<Projection, ProjectionError>)
  {
    var daily := queriesPerUserPerDay * numUsers;
    var monthly := daily * DaysPerMonth;
    var monthlyCost := monthly as real * avgCostPerQuery;
    if numUsers == 0 then Failure(DivisionByZero)
    else Success(Projection(daily, monthly, monthlyCost, monthlyCost / numUsers as real,
                            monthlyCost * MonthsPerYear as real))
  }

  /**
   * The projection's figures agree with one another: 30 days of the daily volume,
   * the average cost per query, twelve months a year, and a per-user share that adds
   * back up to the monthly cost. It fails exactly when there are no users.
   */
  lemma ProjectionConsistent(avgCostPerQuery: real, queriesPerUserPerDay: int, numUsers: int)
    ensures ProjectMonthlyCost(avgCostPerQuery, queriesPerUserPerDay, numUsers).Failure? <==> numUsers == 0
    ensures numUsers != 0 ==>
      var p := ProjectMonthlyCost(avgCostPerQuery, queriesPerUserPerDay, numUsers).value;
      && p.dailyQueries == queriesPerUserPerDay * numUsers
      && p.monthlyQueries == 30 * p.dailyQueries
      && p.monthlyCost == p.monthlyQueries as real * avgCostPerQuery
      && p.annualCost == 12.0 * p.monthlyCost
      && p.costPerUserPerMonth * numUsers as real == p.monthlyCost
      && p.costPerUserPerMonth == 30.0 * queriesPerUserPerDay as real * avgCostPerQuery
  {
    if numUsers != 0 {
      var p := ProjectMonthlyCost(avgCostPerQuery, queriesPerUserPerDay, numUsers).value;
      var n := numUsers as real;
      assert p.monthlyCost == (queriesPerUserPerDay as real * 30.0 * avgCostPerQuery) * n;
    }
  }

  /** Doubling the users doubles the monthly cost and leaves the per-user cost alone. */
  lemma ProjectionScalesWithUsers(avgCostPerQuery: real, queriesPerUserPerDay: int, numUsers: int)
    requires numUsers != 0
    ensures var one := ProjectMonthlyCost(avgCostPerQuery, queriesPerUserPerDay, numUsers).value;
      var two := ProjectMonthlyCost(avgCostPerQuery, queriesPerUserPerDay, 2 * numUsers).value;
      && two.monthlyCost == 2.0 * one.monthlyCost
      && two.costPerUserPerMonth == one.costPerUserPerMonth
  {
    ProjectionConsistent(avgCostPerQuery, queriesPerUserPerDay, numUsers);
    ProjectionConsistent(avgCostPerQuery, queriesPerUserPerDay, 2 * numUsers);
    assert (queriesPerUserPerDay * (2 * numUsers) * 30) as real == 2.0 * (queriesPerUserPerDay * numUsers * 30) as real;
  }

  // ---------------------------------------------------------------------------
  // estimate_token_count and get_cheaper_model_recommendation
  // ---------------------------------------------------------------------------

  /** `len(text) // 4`. */
  function EstimateTokenCount(text: string): (n: nat) {
    |text| / 4
  }

  /** The estimate is the number of whole four-character blocks, and it never shrinks when text is added. */
  lemma TokenEstimateBounds(a: string, b: string)
    ensures 4 * EstimateTokenCount(a) <= |a| < 4 * EstimateTokenCount(a) + 4
    ensures EstimateTokenCount(a) + EstimateTokenCount(b) <= EstimateTokenCount(a + b)
    ensures EstimateTokenCount(a + b) <= EstimateTokenCount(a) + EstimateTokenCount(b) + 1
  {
  }

  const Recommendations: map<string, string> := map[
    "simple" := "gpt-4o-mini",
    "medium" := "gpt-4o",
    "complex" := "gpt-4o"
  ]

  /** `get_cheaper_model_recommendation`. */
  function GetCheaperModelRecommendation(queryComplexity: string): (model: string) {
    if queryComplexity in Recommendations then Recommendations[queryComplexity] else "gpt-4o"
  }

  /**
   * Only "simple" gets the mini model; anything else, known or not, gets gpt-4o. The
   * recommended model is always priced in the table, and never dearer than gpt-4o.
   */
  lemma RecommendationCases(queryComplexity: string, tokensIn: nat, tokensOut: nat)
    ensures GetCheaperModelRecommendation(queryComplexity) == (if queryComplexity == "simple" then "gpt-4o-mini" else "gpt-4o")
    ensures GetCheaperModelRecommendation(queryComplexity) in ModelPricing
    ensures CalculateCost(GetCheaperModelRecommendation(queryComplexity), tokensIn, tokensOut)
         <= CalculateCost("gpt-4o", tokensIn, tokensOut)
  {
    assert tokensIn as real * 0.15 <= tokensIn as real * 2.5;
    assert tokensOut as real * 0.6 <= tokensOut as real * 10.0;
  }
}
