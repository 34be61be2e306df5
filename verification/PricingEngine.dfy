/** The in-memory rate table and the nano-USD cost of a token usage. */
module PricingEngine {
  import opened Wrappers
  import opened BudgetTypes
  import opened Text

  type RateTable = map<string, PricingRate>

  function AliasKey(providerId: string, modelId: string): string {
    Lower(providerId) + "::" + Lower(modelId)
  }

  function TierName(serviceTier: Option<string>): string {
    if serviceTier.None? || serviceTier.value == "" then "standard" else Lower(serviceTier.value)
  }

  function MakeKey(providerId: string, modelId: string, tier: string): string {
    AliasKey(providerId, modelId) + "::" + (if tier == "" then "standard" else Lower(tier))
  }

  function GetRate(rates: RateTable, providerId: string, modelId: string, serviceTier: Option<string>)
    : (r: Result<PricingRate, BudgetError>)
  {
    var tier := TierName(serviceTier);
    var key := MakeKey(providerId, modelId, tier);
    if key in rates then Ok(rates[key])
    else if tier == "standard" && AliasKey(providerId, modelId) in rates then Ok(rates[AliasKey(providerId, modelId)])
    else Err(PricingNotFound)
  }

  /** The five token counts of a usage that passed the integer checks. */
  datatype TokenCounts = TokenCounts(input: nat, cached: nat, cacheWrite: nat, output: nat, reasoning: nat)

  function CountTokens(usage: TokenUsage): (r: Result<TokenCounts, BudgetError>) {
    var zero := Integer(0);
    if !usage.inputTokens.IsCount() || !usage.outputTokens.IsCount()
       || !usage.cachedTokens.GetOr(zero).IsCount()
       || !usage.cacheWriteTokens.GetOr(zero).IsCount()
       || !usage.reasoningTokens.GetOr(zero).IsCount()
    then Err(InvalidPricing(BadTokenCount))
    else Ok(TokenCounts(usage.inputTokens.n, usage.cachedTokens.GetOr(zero).n,
                        usage.cacheWriteTokens.GetOr(zero).n, usage.outputTokens.n,
                        usage.reasoningTokens.GetOr(zero).n))
  }

  /** The four prices in force once the context length is known. */
  datatype ActiveTier = ActiveTier(
    inputNum: int, inputDen: int, outputNum: int, outputDen: int,
    cachedNum: int, cachedDen: int, cacheWriteNum: int, cacheWriteDen: int)

  predicate ValidTier(tier: ActiveTier) {
    && tier.inputNum >= 0 && tier.outputNum >= 0 && tier.cachedNum >= 0 && tier.cacheWriteNum >= 0
    && tier.inputDen > 0 && tier.outputDen > 0 && tier.cachedDen > 0 && tier.cacheWriteDen > 0
  }

  predicate IsLongContext(rate: PricingRate, input: nat, requestedLong: bool) {
    (rate.longContextThreshold.Some? && input > rate.longContextThreshold.value) || requestedLong
  }

  function ShortTier(rate: PricingRate): ActiveTier {
    ActiveTier(rate.inputNum, rate.inputDen, rate.outputNum, rate.outputDen,
               rate.cachedNum, rate.cachedDen, rate.cacheWriteNum, rate.cacheWriteDen)
  }

  /** A long-context tier keeps the short cached (or cache-write) price unless both of its own parts are given. */
  function LongTier(rate: PricingRate): ActiveTier
    requires rate.longContext.Some?
  {
    var long := rate.longContext.value;
    var ownCached := long.cachedNum.Some? && long.cachedDen.Some?;
    var ownWrite := long.cacheWriteNum.Some? && long.cacheWriteDen.Some?;
    ActiveTier(long.inputNum, long.inputDen, long.outputNum, long.outputDen,
               if ownCached then long.cachedNum.value else rate.cachedNum,
               if ownCached then long.cachedDen.value else rate.cachedDen,
               if ownWrite then long.cacheWriteNum.value else rate.cacheWriteNum,
               if ownWrite then long.cacheWriteDen.value else rate.cacheWriteDen)
  }

  function SelectTier(rate: PricingRate, input: nat, requestedLong: bool): (r: Result<ActiveTier, BudgetError>)
    ensures ValidRate(rate) && r.Ok? ==> ValidTier(r.value)
  {
    if !IsLongContext(rate, input, requestedLong) then Ok(ShortTier(rate))
    else if rate.longContext.None? then Err(InvalidPricing(NoLongContextPrice))
    else Ok(LongTier(rate))
  }

  predicate InDomain(c: TokenCounts) {
    c.cached + c.cacheWrite <= c.input && c.reasoning <= c.output
  }

  function PriceParts(c: TokenCounts, tier: ActiveTier): (r: Result<nat, BudgetError>)
    requires InDomain(c)
  {
    var ordinary := c.input - c.cached - c.cacheWrite;
    var inputCost :- CeilDiv(ordinary * tier.inputNum, tier.inputDen);
    var cachedCost :- if c.cached > 0 then CeilDiv(c.cached * tier.cachedNum, tier.cachedDen) else Ok(0);
    var writeCost :- if c.cacheWrite > 0 then CeilDiv(c.cacheWrite * tier.cacheWriteNum, tier.cacheWriteDen) else Ok(0);
    var outputCost :- CeilDiv(c.output * tier.outputNum, tier.outputDen);
    Ok(inputCost + cachedCost + writeCost + outputCost)
  }

  function CalculateCost(usage: TokenUsage, rate: PricingRate): (r: Result<nat, BudgetError>)
    ensures r.Ok? ==> r.value <= MAX_SAFE_INT64
  {
    var c :- CountTokens(usage);
    if c.cached + c.cacheWrite > c.input then Err(InvalidPricing(BadPartition))
    else if c.reasoning > c.output then Err(InvalidPricing(BadReasoning))
    else
      var tier :- SelectTier(rate, c.input, usage.longContext);
      if c.cacheWrite > 0 && tier.cacheWriteNum <= 0 then Err(InvalidPricing(NoCacheWritePrice))
      else
        var total :- PriceParts(c, tier);
        if total > MAX_SAFE_INT64 then Err(InvalidPricing(CostOverflow)) else Ok(total)
  }

  function EstimateCost(rates: RateTable, usage: TokenUsage, providerId: string, modelId: string)
    : (r: Result<nat, BudgetError>)
  {
    var rate :- GetRate(rates, providerId, modelId, usage.serviceTier);
    CalculateCost(usage, rate)
  }

  predicate AcceptableInput(input: PricingRateInput) {
    && input.providerId != "" && Trim(input.modelId) != "*" && Trim(input.modelId) != ""
    && input.inputNum >= 0 && input.outputNum >= 0
    && input.inputDen > 0 && input.outputDen > 0
    && input.cachedNum.GetOr(0) >= 0 && input.cachedDen.GetOr(1) > 0
    && input.cacheWriteNum.GetOr(0) >= 0 && input.cacheWriteDen.GetOr(1) > 0
    && (input.longContext.Some? ==> ValidLongContext(input.longContext.value))
  }

  function RateFrom(input: PricingRateInput): PricingRate {
    PricingRate(input.providerId, input.modelId, Lower(input.serviceTier.GetOr("standard")),
                input.inputNum, input.inputDen, input.outputNum, input.outputDen,
                input.cachedNum.GetOr(0), input.cachedDen.GetOr(1),
                input.cacheWriteNum.GetOr(0), input.cacheWriteDen.GetOr(1),
                input.longContextThreshold, input.longContext)
  }

  /** The rate table after a registration: the full key, and the short alias for the standard tier. */
  function Registered(rates: RateTable, input: PricingRateInput): RateTable {
    var rate := RateFrom(input);
    var full := rates[MakeKey(input.providerId, input.modelId, rate.serviceTier) := rate];
    if rate.serviceTier == "standard" then full[AliasKey(input.providerId, input.modelId) := rate] else full
  }

  class PricingEngine {
    var rates: RateTable

    ghost predicate Valid()
      reads this
    {
      forall key | key in rates :: ValidRate(rates[key])
    }

    constructor ()
      ensures Valid() && rates == map[]
    {
      rates := map[];
    }

    /** Only a well-formed rate enters the table; a refused one changes nothing. */
    method RegisterRate(input: PricingRateInput) returns (r: Result<PricingRate, BudgetError>)
      requires Valid()
      modifies this
      ensures Valid()
      ensures r.Ok? <==> AcceptableInput(input)
      ensures r.Ok? ==> r.value == RateFrom(input) && rates == Registered(old(rates), input)
      ensures r.Err? ==> rates == old(rates)
    {
      if input.providerId == "" || Trim(input.modelId) == "*" || Trim(input.modelId) == "" {
        return Err(InvalidPricing(BadRegistration));
      }
      if input.inputNum < 0 || input.outputNum < 0 || input.inputDen <= 0 || input.outputDen <= 0 {
        return Err(InvalidPricing(BadRegistration));
      }
      var cachedNum, cachedDen := input.cachedNum.GetOr(0), input.cachedDen.GetOr(1);
      var writeNum, writeDen := input.cacheWriteNum.GetOr(0), input.cacheWriteDen.GetOr(1);
      if cachedNum < 0 || cachedDen <= 0 || writeNum < 0 || writeDen <= 0 {
        return Err(InvalidPricing(BadRegistration));
      }
      if input.longContext.Some? && !ValidLongContext(input.longContext.value) {
        return Err(InvalidPricing(BadRegistration));
      }
      var tier := Lower(input.serviceTier.GetOr("standard"));
      var rate := PricingRate(input.providerId, input.modelId, tier,
                              input.inputNum, input.inputDen, input.outputNum, input.outputDen,
                              cachedNum, cachedDen, writeNum, writeDen,
                              input.longContextThreshold, input.longContext);
      rates := rates[MakeKey(input.providerId, input.modelId, tier) := rate];
      if tier == "standard" {
        rates := rates[AliasKey(input.providerId, input.modelId) := rate];
      }
      return Ok(rate);
    }
  }
}
