/** Combining token usage and pricing it. */
module Pricing {
  import opened Prelude
  import opened GenerationContract

  /** The usage of two attempts together; it is again a valid usage. */
  function Combine(first: Usage, second: Usage): Usage {
    TokenUsage(first.inputTokens + second.inputTokens, first.outputTokens + second.outputTokens,
               first.cachedInputTokens + second.cachedInputTokens,
               first.cacheWriteInputTokens + second.cacheWriteInputTokens, first.costUsd + second.costUsd)
  }

  lemma CombineIsAMonoid(a: Usage, b: Usage, c: Usage)
    ensures Combine(Combine(a, b), c) == Combine(a, Combine(b, c))
    ensures Combine(a, b) == Combine(b, a)
    ensures Combine(NO_USAGE, a) == a == Combine(a, NO_USAGE)
  {}

  /** Nothing cancels: combined usage is one part alone only if the other part is nothing. */
  lemma CombineAddsSomething(a: Usage, b: Usage)
    ensures Combine(a, b) == a <==> b == NO_USAGE
  {}

  lemma Interchange(a: Usage, b: Usage, c: Usage, d: Usage)
    ensures Combine(Combine(a, b), Combine(c, d)) == Combine(Combine(a, c), Combine(b, d))
  {}

  lemma CombineIsNothing(a: Usage, b: Usage)
    ensures a == NO_USAGE && b == NO_USAGE ==> Combine(a, b) == NO_USAGE
    ensures Combine(a, b) == NO_USAGE ==> a == NO_USAGE
    ensures Combine(a, b) == NO_USAGE ==> b == NO_USAGE
  {
    CombineIsAMonoid(a, b, b);
    if Combine(a, b) == NO_USAGE {
      NothingPart(a, b);
      NothingPart(b, a);
    }
  }

  lemma NothingPart(a: Usage, b: Usage)
    requires Combine(a, b) == NO_USAGE
    ensures a == NO_USAGE
  {
    assert a.inputTokens == 0 && a.outputTokens == 0 && a.cachedInputTokens == 0 && a.cacheWriteInputTokens == 0;
    assert a.costUsd == 0.0;
  }

  datatype ModelPricing = ModelPricing(input: real, output: real, cachedInput: Option<real>,
                                       cacheWriteInput: Option<real>)
  {
    predicate Valid() {
      && input >= 0.0 && output >= 0.0
      && (cachedInput.Some? ==> cachedInput.value >= 0.0)
      && (cacheWriteInput.Some? ==> cacheWriteInput.value >= 0.0)
    }
  }

  datatype ModelName = ModelName(provider: string, model: string)

  type PricingTable = map<ModelName, ModelPricing>

  datatype PricingError = NegativeTokens | CachedExceedInput | NoPricing

  const MILLION: real := 1_000_000.0

  function Rate(specific: Option<real>, general: real): real {
    if specific.Some? then specific.value else general
  }

  function Charge(p: ModelPricing, input: int, output: int, cached: int, cacheWrite: int): real {
    ((input - cached - cacheWrite) as real * p.input + cached as real * Rate(p.cachedInput, p.input)
     + cacheWrite as real * Rate(p.cacheWriteInput, p.input) + output as real * p.output) / MILLION
  }

  function CalculateCost(table: PricingTable, name: ModelName, input: int, output: int, cached: int, cacheWrite: int)
    : Result<real, PricingError>
  {
    if input < 0 || output < 0 || cached < 0 || cacheWrite < 0 then Err(NegativeTokens)
    else if cached + cacheWrite > input then Err(CachedExceedInput)
    else if name !in table then Err(NoPricing)
    else Ok(Charge(table[name], input, output, cached, cacheWrite))
  }

  function CostOf(table: PricingTable, name: ModelName, usage: Usage): Result<real, PricingError> {
    CalculateCost(table, name, usage.inputTokens, usage.outputTokens, usage.cachedInputTokens,
                  usage.cacheWriteInputTokens)
  }

  /** The usage carries the cost the table assigns to its tokens. */
  predicate PricedBy(table: PricingTable, name: ModelName, usage: Usage) {
    CostOf(table, name, usage) == Ok(usage.costUsd)
  }

  lemma Linear(rate: real, a: int, b: int)
    ensures (a + b) as real * rate == a as real * rate + b as real * rate
  {
    assert (a + b) as real == a as real + b as real;
  }

  lemma ChargeIsAdditive(p: ModelPricing, i: int, o: int, c: int, w: int, j: int, q: int, d: int, x: int)
    ensures Charge(p, i + j, o + q, c + d, w + x) == Charge(p, i, o, c, w) + Charge(p, j, q, d, x)
  {
    assert (i + j) - (c + d) - (w + x) == (i - c - w) + (j - d - x);
    Linear(p.input, i - c - w, j - d - x);
    Linear(Rate(p.cachedInput, p.input), c, d);
    Linear(Rate(p.cacheWriteInput, p.input), w, x);
    Linear(p.output, o, q);
  }

  /** Pricing two attempts together costs exactly what pricing them apart does, so a combined usage stays priced. */
  lemma PricingIsAdditive(table: PricingTable, name: ModelName, a: Usage, b: Usage)
    ensures CostOf(table, name, a).Ok? <==> name in table
    ensures name in table ==>
              CostOf(table, name, Combine(a, b)) == Ok(CostOf(table, name, a).value + CostOf(table, name, b).value)
    ensures PricedBy(table, name, a) && PricedBy(table, name, b) ==> PricedBy(table, name, Combine(a, b))
  {
    if name in table {
      ChargeIsAdditive(table[name], a.inputTokens, a.outputTokens, a.cachedInputTokens, a.cacheWriteInputTokens,
                       b.inputTokens, b.outputTokens, b.cachedInputTokens, b.cacheWriteInputTokens);
    }
  }

  lemma ProductIsNonNegative(count: int, rate: real)
    requires count >= 0 && rate >= 0.0
    ensures count as real * rate >= 0.0
  {}

  /** A cost that can be calculated can be recorded: it is never negative. */
  lemma CostsAreNonNegative(table: PricingTable, name: ModelName, input: int, output: int, cached: int, cacheWrite: int)
    requires forall n <- table :: table[n].Valid()
    ensures var cost := CalculateCost(table, name, input, output, cached, cacheWrite);
            cost.Ok? ==> TokenUsage(input, output, cached, cacheWrite, cost.value).Valid()
  {
    if CalculateCost(table, name, input, output, cached, cacheWrite).Ok? {
      var p := table[name];
      ProductIsNonNegative(input - cached - cacheWrite, p.input);
      ProductIsNonNegative(cached, Rate(p.cachedInput, p.input));
      ProductIsNonNegative(cacheWrite, Rate(p.cacheWriteInput, p.input));
      ProductIsNonNegative(output, p.output);
    }
  }

  /**
   * A table's entries are the prices of a million tokens of each kind. Cached and cache-writing tokens are input tokens
   * too, at their own price if the table names one and at the input price otherwise. Together with
   * `PricingIsAdditive` this fixes every cost.
   */
  lemma MillionTokenPrices(table: PricingTable, name: ModelName)
    requires name in table
    ensures CalculateCost(table, name, 1_000_000, 0, 0, 0) == Ok(table[name].input)
    ensures CalculateCost(table, name, 0, 1_000_000, 0, 0) == Ok(table[name].output)
    ensures CalculateCost(table, name, 1_000_000, 0, 1_000_000, 0)
         == Ok(match table[name].cachedInput case None => table[name].input case Some(price) => price)
    ensures CalculateCost(table, name, 1_000_000, 0, 0, 1_000_000)
         == Ok(match table[name].cacheWriteInput case None => table[name].input case Some(price) => price)
  {
    var p := table[name];
    ChargePerMillion(p, 1, 0, 0, 0);
    ChargePerMillion(p, 0, 1, 0, 0);
    ChargePerMillion(p, 1, 0, 1, 0);
    ChargePerMillion(p, 1, 0, 0, 1);
    assert Charge(p, 1_000_000, 0, 0, 0) == p.input;
    assert Charge(p, 0, 1_000_000, 0, 0) == p.output;
    assert Charge(p, 1_000_000, 0, 1_000_000, 0) == Rate(p.cachedInput, p.input);
    assert Charge(p, 1_000_000, 0, 0, 1_000_000) == Rate(p.cacheWriteInput, p.input);
  }

  lemma ChargePerMillion(p: ModelPricing, i: int, o: int, c: int, w: int)
    ensures Charge(p, i * 1_000_000, o * 1_000_000, c * 1_000_000, w * 1_000_000)
         == (i - c - w) as real * p.input + c as real * Rate(p.cachedInput, p.input)
            + w as real * Rate(p.cacheWriteInput, p.input) + o as real * p.output
  {
    Millions(i - c - w, p.input);
    Millions(c, Rate(p.cachedInput, p.input));
    Millions(w, Rate(p.cacheWriteInput, p.input));
    Millions(o, p.output);
    assert i * 1_000_000 - c * 1_000_000 - w * 1_000_000 == (i - c - w) * 1_000_000;
  }

  lemma Millions(count: int, rate: real)
    ensures (count * 1_000_000) as real * rate == (count as real * rate) * MILLION
  {
    assert (count * 1_000_000) as real == count as real * MILLION;
  }

  /** Which error is raised, if any. */
  lemma CostFailsExactly(table: PricingTable, name: ModelName, input: int, output: int, cached: int, cacheWrite: int)
    ensures var cost := CalculateCost(table, name, input, output, cached, cacheWrite);
            var negative := input < 0 || output < 0 || cached < 0 || cacheWrite < 0;
            && (cost == Err(NegativeTokens) <==> negative)
            && (cost == Err(CachedExceedInput) <==> !negative && input < cached + cacheWrite)
            && (cost == Err(NoPricing) <==> !negative && cached + cacheWrite <= input && name !in table)
            && (cost.Ok? <==> !negative && cached + cacheWrite <= input && name in table)
  {}
}
