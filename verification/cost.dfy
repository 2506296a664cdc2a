/** `calculate_claude_pricing` and `calculate_claude_cost`: the cost of a call from its token
    counts, in dollars. */
module Cost {
  import opened Models

  /** The one model choice priced at the Haiku rates. */
  const HAIKU_CHOICE: string := "claude/3-haiku"

  /** `calculate_claude_pricing`: each token count, in millions, times its price per million. */
  function ClaudePricing(promptTokens: int, completionTokens: int,
                         pricePer1mPromptTokens: real, pricePer1mCompletionTokens: real): real
  {
    (promptTokens as real / 1000000.0) * pricePer1mPromptTokens
      + (completionTokens as real / 1000000.0) * pricePer1mCompletionTokens
  }

  /** One million prompt tokens and no completion tokens cost exactly the prompt rate. */
  lemma PricingPerMillion(pricePer1mPromptTokens: real, pricePer1mCompletionTokens: real)
    ensures ClaudePricing(1000000, 0, pricePer1mPromptTokens, pricePer1mCompletionTokens) == pricePer1mPromptTokens
  {
  }

  /** Non-negative counts at non-negative rates never cost less than nothing. */
  lemma PricingNonNegative(promptTokens: int, completionTokens: int, ratePrompt: real, rateCompletion: real)
    requires promptTokens >= 0 && completionTokens >= 0 && ratePrompt >= 0.0 && rateCompletion >= 0.0
    ensures ClaudePricing(promptTokens, completionTokens, ratePrompt, rateCompletion) >= 0.0
  {
    var p, c := promptTokens as real / 1000000.0, completionTokens as real / 1000000.0;
    assert p >= 0.0 && c >= 0.0;
    assert p * ratePrompt >= 0.0;
    assert c * rateCompletion >= 0.0;
  }

  /** Pricing is additive: two calls cost what one call with their summed counts costs. */
  lemma PricingAdditive(p1: int, c1: int, p2: int, c2: int, ratePrompt: real, rateCompletion: real)
    ensures ClaudePricing(p1 + p2, c1 + c2, ratePrompt, rateCompletion)
         == ClaudePricing(p1, c1, ratePrompt, rateCompletion) + ClaudePricing(p2, c2, ratePrompt, rateCompletion)
  {
    var a1, a2 := p1 as real / 1000000.0, p2 as real / 1000000.0;
    var b1, b2 := c1 as real / 1000000.0, c2 as real / 1000000.0;
    assert (p1 + p2) as real / 1000000.0 == a1 + a2;
    assert (c1 + c2) as real / 1000000.0 == b1 + b2;
    assert (a1 + a2) * ratePrompt == a1 * ratePrompt + a2 * ratePrompt;
    assert (b1 + b2) * rateCompletion == b1 * rateCompletion + b2 * rateCompletion;
  }

  /** At the default rates the docstring names, $0.150 per million prompt tokens and $0.600
      per million completion tokens, 1000 prompt and 500 completion tokens cost $0.00045. */
  lemma PricingScenario()
    ensures ClaudePricing(1000, 500, 0.15, 0.6) == 0.00045
  {
  }

  /** `calculate_claude_cost`: exactly the choice `claude/3-haiku` is priced at $0.25 per million
      prompt tokens and $0.125 per million completion tokens; every other choice, recognised or
      not, at the Sonnet rates of $3 and $15 per million. */
  function ClaudeCost(modelChoice: string, tokens: Tokens): (cost: real)
    ensures modelChoice == HAIKU_CHOICE ==>
      cost == ClaudePricing(tokens.promptTokens, tokens.completionTokens, 0.25, 0.125)
    ensures modelChoice != HAIKU_CHOICE ==>
      cost == ClaudePricing(tokens.promptTokens, tokens.completionTokens, 3.0, 15.0)
    ensures cost >= 0.0
  {
    if modelChoice == HAIKU_CHOICE then
      (tokens.promptTokens as real * 0.00025 + tokens.completionTokens as real * 0.000125) / 1000.0
    else
      (tokens.promptTokens as real * 0.003 + tokens.completionTokens as real * 0.015) / 1000.0
  }

  /** At the Haiku rates as written, 1000 prompt and 500 completion tokens cost $0.0003125,
      the same as `calculate_claude_pricing` at $0.25 and $0.125 per million. */
  lemma HaikuCostScenario()
    ensures ClaudeCost(HAIKU_CHOICE, Tokens(1000, 500, 1500)) == 0.0003125
    ensures ClaudeCost(HAIKU_CHOICE, Tokens(1000, 500, 1500)) == ClaudePricing(1000, 500, 0.25, 0.125)
  {
  }
}
