/** Price lookup and the linear cost formula (src/pricing.ts). */
module Pricing {
  import opened Wrappers
  import opened Types

  /** The catalog entry for `model`, if any. */
  function GetModelPricing(catalog: PricingCatalog, model: string): (r: Option<ModelPricing>)
    ensures r.Some? <==> model in catalog
    ensures r.Some? ==> r.value == catalog[model]
  {
    if model in catalog then Some(catalog[model]) else None
  }

  /** Cost in dollars of `inputTokens` and `outputTokens` at the given prices. */
  function TokenCost(p: ModelPricing, inputTokens: real, outputTokens: real): real {
    (inputTokens / 1000000.0) * p.inputPerMillionUsd + (outputTokens / 1000000.0) * p.outputPerMillionUsd
  }

  /** Cost of one call; `None` (the source's `undefined`) exactly when the
      model has no catalog entry. */
  function CalculateCostUsd(catalog: PricingCatalog, model: string, inputTokens: real, outputTokens: real): (r: Option<real>)
    ensures r.None? <==> model !in catalog
    ensures r.Some? ==> r.value == TokenCost(catalog[model], inputTokens, outputTokens)
  {
    match GetModelPricing(catalog, model)
    case None => None
    case Some(p) => Some(TokenCost(p, inputTokens, outputTokens))
  }

  /** The catalog a guard uses: the caller's overlay replaces built-in
      entries model by model and adds new ones. */
  function MergeCatalog(builtIn: PricingCatalog, overlay: PricingCatalog): (r: PricingCatalog)
    ensures r.Keys == builtIn.Keys + overlay.Keys
    ensures forall m :: m in overlay ==> r[m] == overlay[m]
    ensures forall m :: m in builtIn && m !in overlay ==> r[m] == builtIn[m]
  {
    builtIn + overlay
  }

  /** No tokens, no cost, whatever the model's price. */
  lemma ZeroTokensCostNothing(catalog: PricingCatalog, model: string)
    requires model in catalog
    ensures CalculateCostUsd(catalog, model, 0.0, 0.0) == Some(0.0)
  {
  }

  /** With non-negative prices, cost is non-negative and grows with each
      token count. */
  lemma CostNonNegativeAndMonotone(p: ModelPricing, in1: real, out1: real, in2: real, out2: real)
    requires p.inputPerMillionUsd >= 0.0 && p.outputPerMillionUsd >= 0.0
    requires 0.0 <= in1 <= in2 && 0.0 <= out1 <= out2
    ensures 0.0 <= TokenCost(p, in1, out1) <= TokenCost(p, in2, out2)
  {
    assert (in1 / 1000000.0) * p.inputPerMillionUsd <= (in2 / 1000000.0) * p.inputPerMillionUsd;
    assert (out1 / 1000000.0) * p.outputPerMillionUsd <= (out2 / 1000000.0) * p.outputPerMillionUsd;
  }

  /** Splitting a call's tokens over two calls costs the same in total. */
  lemma CostIsAdditive(p: ModelPricing, in1: real, out1: real, in2: real, out2: real)
    ensures TokenCost(p, in1 + in2, out1 + out2) == TokenCost(p, in1, out1) + TokenCost(p, in2, out2)
  {
    assert (in1 + in2) / 1000000.0 * p.inputPerMillionUsd
        == in1 / 1000000.0 * p.inputPerMillionUsd + in2 / 1000000.0 * p.inputPerMillionUsd;
    assert (out1 + out2) / 1000000.0 * p.outputPerMillionUsd
        == out1 / 1000000.0 * p.outputPerMillionUsd + out2 / 1000000.0 * p.outputPerMillionUsd;
  }

  /** gpt-4o-mini at $0.15/$0.60 per million: 500k input and 250k output
      tokens cost 0.075 + 0.15 = 0.225 dollars. */
  lemma MiniModelExample(catalog: PricingCatalog)
    requires "gpt-4o-mini" in catalog && catalog["gpt-4o-mini"] == ModelPricing(0.15, 0.6)
    ensures CalculateCostUsd(catalog, "gpt-4o-mini", 500000.0, 250000.0) == Some(0.225)
  {
  }
}
