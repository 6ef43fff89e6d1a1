/** Cost estimation of app/core/finance/cost_calculator.py: static
    arithmetic over a constant pricing table, in internal USD units. */
module CostCalculator {
  import opened Common

  /** A model's entry in the table: each rate key is present or absent. */
  datatype Rates = Rates(input1k: Option<real>, output1k: Option<real>,
                         perGen: Option<real>, perSecond: Option<real>)

  /** The models the table prices. */
  const PricedModels: seq<string> :=
    ["gemini-3-pro-preview-preview", "gemini-3-flash-preview", "imagen-3.0-generate-002", "veo-3.1"]

  /** `MODEL_PRICING.get(model)`: None for a model the table does not list. */
  function Pricing(model: string): (r: Option<Rates>)
    ensures r.Some? <==> model in PricedModels
  {
    if model == "gemini-3-pro-preview-preview" then Some(Rates(Some(0.00125), Some(0.00375), None, None))
    else if model == "gemini-3-flash-preview" then Some(Rates(Some(0.0001), Some(0.0003), None, None))
    else if model == "imagen-3.0-generate-002" then Some(Rates(None, None, Some(0.03), None))
    else if model == "veo-3.1" then Some(Rates(None, None, None, Some(0.10)))
    else None
  }

  /** `rates.get(key, default)` */
  function RateOr(rate: Option<real>, default: real): real
  {
    if rate.Some? then rate.value else default
  }

  /** Every rate present in an entry is non-negative. */
  predicate RatesNonNegative(rates: Rates)
  {
    RateOr(rates.input1k, 0.0) >= 0.0 && RateOr(rates.output1k, 0.0) >= 0.0
    && RateOr(rates.perGen, 0.0) >= 0.0 && RateOr(rates.perSecond, 0.0) >= 0.0
  }

  /** `estimate_text_cost`: 0.01 for an unpriced model, otherwise the input
      and output token counts in thousands times their rates, a missing
      rate counting as 0. */
  function EstimateTextCost(model: string, inputTokens: int, outputTokens: int): (cost: real)
    ensures model !in PricedModels ==> cost == 0.01
    ensures inputTokens >= 0 && outputTokens >= 0 ==> cost >= 0.0
  {
    match Pricing(model)
    case None => 0.01
    case Some(rates) =>
      (inputTokens as real) / 1000.0 * RateOr(rates.input1k, 0.0)
      + (outputTokens as real) / 1000.0 * RateOr(rates.output1k, 0.0)
  }

  /** The image `count` a caller gets by leaving it out. */
  const DefaultImageCount: int := 1

  /** `estimate_image_cost`: per-generation rate (0.03 when absent) times count. */
  function EstimateImageCost(model: string, count: int): (cost: real)
    ensures model !in PricedModels ==> cost == 0.03 * (count as real)
    ensures count >= 0 ==> cost >= 0.0
  {
    match Pricing(model)
    case None => 0.03 * (count as real)
    case Some(rates) => RateOr(rates.perGen, 0.03) * (count as real)
  }

  /** `estimate_video_cost`: per-second rate (0.10 when absent) times duration,
      or a flat 0.50 for an unpriced model. */
  function EstimateVideoCost(model: string, durationSeconds: real): (cost: real)
    ensures model !in PricedModels ==> cost == 0.50
    ensures durationSeconds >= 0.0 ==> cost >= 0.0
  {
    match Pricing(model)
    case None => 0.50
    case Some(rates) => RateOr(rates.perSecond, 0.10) * durationSeconds
  }

  lemma PricingRatesNonNegative(model: string)
    requires Pricing(model).Some?
    ensures RatesNonNegative(Pricing(model).value)
  {
  }

  /** A model priced per generation or per second has no token rates, so
      its text cost is zero whatever the token counts. */
  lemma MediaModelTextCostIsZero(inputTokens: int, outputTokens: int)
    ensures EstimateTextCost("imagen-3.0-generate-002", inputTokens, outputTokens) == 0.0
    ensures EstimateTextCost("veo-3.1", inputTokens, outputTokens) == 0.0
  {
  }

  /** Text cost grows linearly: doubling both token counts doubles the cost
      of a priced model. */
  lemma TextCostIsLinear(model: string, inputTokens: int, outputTokens: int)
    requires model in PricedModels
    ensures EstimateTextCost(model, 2 * inputTokens, 2 * outputTokens)
            == 2.0 * EstimateTextCost(model, inputTokens, outputTokens)
  {
  }

  /** The three reference figures: 10k input and 1k output tokens on the
      pro model, two images, and five seconds of video. */
  lemma ReferenceFigures()
    ensures EstimateTextCost("gemini-3-pro-preview-preview", 10000, 1000) == 0.01625
    ensures EstimateImageCost("imagen-3.0-generate-002", 2) == 0.06
    ensures EstimateVideoCost("veo-3.1", 5.0) == 0.50
  {
  }
}
