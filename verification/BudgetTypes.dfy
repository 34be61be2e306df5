/** Amounts, token counts, pricing rates and error codes of the budget subsystem. */
module BudgetTypes {
  import opened Wrappers

  /** The largest amount, in nano-USD, the ledger's INTEGER columns are meant to hold. */
  const MAX_SAFE_INT64: nat := 9223372036854775807

  datatype BudgetError =
    | InvalidPricing(reason: PricingFault)
    | PricingNotFound
    | IdempotencyConflict
    | InvalidAccount
    | ReservationNotFound
    | InvalidReservationState
    | BudgetOverrun
    | BudgetExceeded
    | BudgetRequired
    | AccountMismatch
    | ModelMismatch
    | AlreadyConsumed
    | UnsupportedBillingMode
    | UsageMissing
    | UsageIncomplete
    | UsageMalformed
    | UsageInconsistent
    // A violated key or CHECK constraint of the database.
    | ConstraintViolation
    // A JavaScript TypeError: a property of undefined, or BigInt(undefined).
    | TypeFault

  datatype PricingFault =
    | BadRegistration | BadDivisor | BadTokenCount | BadPartition | BadReasoning
    | NoLongContextPrice | NoCacheWritePrice | CostOverflow

  /** A JavaScript number, seen through Number.isInteger. */
  datatype JsNumber = Integer(n: int) | NotInteger {
    predicate IsCount() {
      Integer? && n >= 0
    }
  }

  /** Reported or estimated usage. `longContext` is `contextTier === 'long'`. */
  datatype TokenUsage = TokenUsage(
    inputTokens: JsNumber,
    outputTokens: JsNumber,
    cachedTokens: Option<JsNumber>,
    cacheWriteTokens: Option<JsNumber>,
    reasoningTokens: Option<JsNumber>,
    serviceTier: Option<string>,
    longContext: bool)

  datatype ContextTierPricing = ContextTierPricing(
    inputNum: int, inputDen: int,
    outputNum: int, outputDen: int,
    cachedNum: Option<int>, cachedDen: Option<int>,
    cacheWriteNum: Option<int>, cacheWriteDen: Option<int>)

  datatype PricingRate = PricingRate(
    providerId: string, modelId: string, serviceTier: string,
    inputNum: int, inputDen: int,
    outputNum: int, outputDen: int,
    cachedNum: int, cachedDen: int,
    cacheWriteNum: int, cacheWriteDen: int,
    longContextThreshold: Option<int>,
    longContext: Option<ContextTierPricing>)

  datatype PricingRateInput = PricingRateInput(
    providerId: string, modelId: string, serviceTier: Option<string>,
    inputNum: int, inputDen: int,
    outputNum: int, outputDen: int,
    cachedNum: Option<int>, cachedDen: Option<int>,
    cacheWriteNum: Option<int>, cacheWriteDen: Option<int>,
    longContextThreshold: Option<int>,
    longContext: Option<ContextTierPricing>)

  predicate ValidLongContext(tier: ContextTierPricing) {
    && tier.inputNum >= 0 && tier.outputNum >= 0
    && tier.inputDen > 0 && tier.outputDen > 0
    && tier.cachedNum.GetOr(0) >= 0 && tier.cachedDen.GetOr(1) > 0
    && tier.cacheWriteNum.GetOr(0) >= 0 && tier.cacheWriteDen.GetOr(1) > 0
  }

  predicate ValidRate(rate: PricingRate) {
    && rate.inputNum >= 0 && rate.outputNum >= 0 && rate.cachedNum >= 0 && rate.cacheWriteNum >= 0
    && rate.inputDen > 0 && rate.outputDen > 0 && rate.cachedDen > 0 && rate.cacheWriteDen > 0
    && (rate.longContext.Some? ==> ValidLongContext(rate.longContext.value))
  }

  /** Integer ceiling division; a numerator below zero counts as zero. */
  function CeilDiv(numerator: int, denominator: int): (r: Result<nat, BudgetError>)
    ensures r.Err? <==> denominator <= 0
    ensures r.Ok? && numerator > 0 ==> (r.value - 1) * denominator < numerator <= r.value * denominator
    ensures r.Ok? && numerator <= 0 ==> r.value == 0
  {
    if denominator <= 0 then Err(InvalidPricing(BadDivisor))
    else if numerator <= 0 then Ok(0)
    else
      var q := (numerator + (denominator - 1)) / denominator;
      assert numerator + (denominator - 1) == q * denominator + (numerator + (denominator - 1)) % denominator;
      Ok(q)
  }
}
