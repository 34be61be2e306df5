/** The cost of a usage, written out in the fields of the usage and of the rate. */
module PricingMeaning {
  import opened Wrappers
  import opened BudgetTypes
  import opened PricingEngine
  import opened PricingLaws
  import PricingLookup
  import Text

  // ---------- the parts of a usage ----------

  /** Each optional count that is given is an integer of at least 0. */
  predicate OptionalCount(count: Option<JsNumber>) {
    count.Some? ==> count.value.Integer? && count.value.n >= 0
  }

  predicate WholeCounts(usage: TokenUsage) {
    && usage.inputTokens.Integer? && usage.inputTokens.n >= 0
    && usage.outputTokens.Integer? && usage.outputTokens.n >= 0
    && OptionalCount(usage.cachedTokens) && OptionalCount(usage.cacheWriteTokens) && OptionalCount(usage.reasoningTokens)
  }

  function Given(count: Option<JsNumber>): nat
    requires OptionalCount(count)
  {
    if count.Some? then count.value.n else 0
  }

  /** Cached and written tokens are part of the input, reasoning tokens part of the output. */
  predicate PartsFit(usage: TokenUsage)
    requires WholeCounts(usage)
  {
    && Given(usage.cachedTokens) + Given(usage.cacheWriteTokens) <= usage.inputTokens.n
    && Given(usage.reasoningTokens) <= usage.outputTokens.n
  }

  /** The request asks for the long context, or its input exceeds the threshold of the rate. */
  predicate AsksLong(usage: TokenUsage, rate: PricingRate)
    requires usage.inputTokens.Integer?
  {
    usage.longContext || (rate.longContextThreshold.Some? && usage.inputTokens.n > rate.longContextThreshold.value)
  }

  // ---------- four prices ----------

  /** Ordinary input, cached input, cache writes and output, each with its price. */
  datatype Priced = Priced(
    ordinary: nat, inputNum: int, inputDen: int,
    cached: nat, cachedNum: int, cachedDen: int,
    written: nat, writeNum: int, writeDen: int,
    output: nat, outputNum: int, outputDen: int)
  {
    predicate Valid() {
      inputNum >= 0 && cachedNum >= 0 && writeNum >= 0 && outputNum >= 0
      && inputDen > 0 && cachedDen > 0 && writeDen > 0 && outputDen > 0
    }

    /** The exact rational cost. */
    function Exact(): real
      requires Valid()
    {
      (ordinary * inputNum) as real / inputDen as real + (cached * cachedNum) as real / cachedDen as real
      + (written * writeNum) as real / writeDen as real + (output * outputNum) as real / outputDen as real
    }

    /** Each part rounded up on its own. */
    function RoundedUp(): nat
      requires Valid()
    {
      CeilDiv(ordinary * inputNum, inputDen).value + CeilDiv(cached * cachedNum, cachedDen).value
      + CeilDiv(written * writeNum, writeDen).value + CeilDiv(output * outputNum, outputDen).value
    }

    function Nonzero(): nat {
      (if ordinary > 0 then 1 else 0) + (if cached > 0 then 1 else 0)
      + (if written > 0 then 1 else 0) + (if output > 0 then 1 else 0)
    }
  }

  /** The usage at the prices of the short context. */
  function AtShortPrices(usage: TokenUsage, rate: PricingRate): Priced
    requires WholeCounts(usage) && PartsFit(usage)
  {
    Priced(usage.inputTokens.n - Given(usage.cachedTokens) - Given(usage.cacheWriteTokens), rate.inputNum, rate.inputDen,
           Given(usage.cachedTokens), rate.cachedNum, rate.cachedDen,
           Given(usage.cacheWriteTokens), rate.cacheWriteNum, rate.cacheWriteDen,
           usage.outputTokens.n, rate.outputNum, rate.outputDen)
  }

  /** The usage at the prices of the long context. A cached or cache-write price with a half missing is replaced by
      the short one. */
  function AtLongPrices(usage: TokenUsage, rate: PricingRate): (p: Priced)
    requires WholeCounts(usage) && PartsFit(usage) && rate.longContext.Some?
  {
    var long, short := rate.longContext.value, AtShortPrices(usage, rate);
    var cachedPrice := if long.cachedNum.Some? && long.cachedDen.Some?
                       then (long.cachedNum.value, long.cachedDen.value) else (rate.cachedNum, rate.cachedDen);
    var writePrice := if long.cacheWriteNum.Some? && long.cacheWriteDen.Some?
                      then (long.cacheWriteNum.value, long.cacheWriteDen.value) else (rate.cacheWriteNum, rate.cacheWriteDen);
    short.(inputNum := long.inputNum, inputDen := long.inputDen, outputNum := long.outputNum, outputDen := long.outputDen,
           cachedNum := cachedPrice.0, cachedDen := cachedPrice.1,
           writeNum := writePrice.0, writeDen := writePrice.1)
  }

  /** At least the exact cost, by less than one nano-USD more for each part that is not zero. */
  ghost predicate Charges(cost: nat, p: Priced)
    requires p.Valid()
  {
    && cost == p.RoundedUp()
    && p.Exact() <= cost as real
    && (p.Nonzero() == 0 ==> cost == 0)
    && (p.Nonzero() > 0 ==> cost as real < p.Exact() + p.Nonzero() as real)
  }

  // ---------- what is charged ----------

  function PricedParts(c: TokenCounts, tier: ActiveTier): Priced
    requires InDomain(c)
  {
    Priced(c.input - c.cached - c.cacheWrite, tier.inputNum, tier.inputDen, c.cached, tier.cachedNum, tier.cachedDen,
           c.cacheWrite, tier.cacheWriteNum, tier.cacheWriteDen, c.output, tier.outputNum, tier.outputDen)
  }

  lemma TotalCharges(c: TokenCounts, tier: ActiveTier)
    requires InDomain(c) && ValidTier(tier)
    ensures PricedParts(c, tier).Valid() && Charges(TierTotal(c, tier), PricedParts(c, tier))
  {
    PartBounds(Ordinary(c), tier.inputNum, tier.inputDen);
    PartBounds(c.cached, tier.cachedNum, tier.cachedDen);
    PartBounds(c.cacheWrite, tier.cacheWriteNum, tier.cacheWriteDen);
    PartBounds(c.output, tier.outputNum, tier.outputDen);
  }

  lemma CountsAre(usage: TokenUsage)
    ensures CountTokens(usage).Ok? <==> WholeCounts(usage)
    ensures CountTokens(usage).Ok? ==>
              CountTokens(usage).value == TokenCounts(usage.inputTokens.n, Given(usage.cachedTokens), Given(usage.cacheWriteTokens),
                                                      usage.outputTokens.n, Given(usage.reasoningTokens))
  {
  }

  function PricesOf(usage: TokenUsage, rate: PricingRate): Priced
    requires WholeCounts(usage) && PartsFit(usage) && (AsksLong(usage, rate) ==> rate.longContext.Some?)
  {
    if AsksLong(usage, rate) then AtLongPrices(usage, rate) else AtShortPrices(usage, rate)
  }

  lemma TierIs(usage: TokenUsage, rate: PricingRate, c: TokenCounts)
    requires CountTokens(usage) == Ok(c) && InDomain(c)
    ensures WholeCounts(usage) && PartsFit(usage)
    ensures var tier := SelectTier(rate, c.input, usage.longContext);
            && (tier.Ok? <==> (AsksLong(usage, rate) ==> rate.longContext.Some?))
            && (tier.Ok? ==> PricedParts(c, tier.value) == PricesOf(usage, rate))
  {
    CountsAre(usage);
  }

  lemma PricedIsBilled(usage: TokenUsage, rate: PricingRate)
    requires ValidRate(rate) && CalculateCost(usage, rate).Ok?
    ensures WholeCounts(usage) && PartsFit(usage) && (AsksLong(usage, rate) ==> rate.longContext.Some?)
    ensures PricedParts(BilledCounts(usage, rate), BilledTier(usage, rate)) == PricesOf(usage, rate)
  {
    TierIs(usage, rate, BilledCounts(usage, rate));
  }

  /** A cost short of the threshold is the sum of four charges, each rounded up, at the short prices of the rate. */
  lemma ShortContextCost(usage: TokenUsage, rate: PricingRate)
    requires ValidRate(rate) && CalculateCost(usage, rate).Ok?
    requires usage.inputTokens.Integer? && !AsksLong(usage, rate)
    ensures WholeCounts(usage) && PartsFit(usage) && AtShortPrices(usage, rate).Valid()
    ensures Charges(CalculateCost(usage, rate).value, AtShortPrices(usage, rate))
  {
    PricedIsBilled(usage, rate);
    CostIsTierTotal(usage, rate);
    TotalCharges(BilledCounts(usage, rate), BilledTier(usage, rate));
  }

  /** A cost in the long context is the same sum at the long prices. */
  lemma LongContextCost(usage: TokenUsage, rate: PricingRate)
    requires ValidRate(rate) && CalculateCost(usage, rate).Ok?
    requires usage.inputTokens.Integer? && AsksLong(usage, rate)
    ensures WholeCounts(usage) && PartsFit(usage) && rate.longContext.Some? && AtLongPrices(usage, rate).Valid()
    ensures Charges(CalculateCost(usage, rate).value, AtLongPrices(usage, rate))
  {
    PricedIsBilled(usage, rate);
    CostIsTierTotal(usage, rate);
    TotalCharges(BilledCounts(usage, rate), BilledTier(usage, rate));
  }

  /** Why a usage is not priced: the first of six reasons, in this order. */
  lemma RefusalReason(usage: TokenUsage, rate: PricingRate)
    requires ValidRate(rate)
    ensures match CalculateCost(usage, rate)
            case Ok(cost) => cost <= MAX_SAFE_INT64
            case Err(e) =>
              e == InvalidPricing(
                if !WholeCounts(usage) then BadTokenCount
                else if Given(usage.cachedTokens) + Given(usage.cacheWriteTokens) > usage.inputTokens.n then BadPartition
                else if Given(usage.reasoningTokens) > usage.outputTokens.n then BadReasoning
                else if AsksLong(usage, rate) && rate.longContext.None? then NoLongContextPrice
                else if Given(usage.cacheWriteTokens) > 0 && PricesOf(usage, rate).writeNum <= 0 then NoCacheWritePrice
                else CostOverflow)
  {
    var counted := CountTokens(usage);
    if counted.Ok? && InDomain(counted.value) {
      var tier := SelectTier(rate, counted.value.input, usage.longContext);
      if tier.Ok? {
        PartsPriced(counted.value, tier.value);
      }
    }
  }

  /** A usage is priced exactly when none of these applies and the charges fit in int64. */
  lemma PricedExactly(usage: TokenUsage, rate: PricingRate)
    requires ValidRate(rate)
    ensures CalculateCost(usage, rate).Ok? <==>
            && WholeCounts(usage) && PartsFit(usage)
            && (AsksLong(usage, rate) ==> rate.longContext.Some?)
            && (Given(usage.cacheWriteTokens) > 0 ==> PricesOf(usage, rate).writeNum > 0)
            && PricesOf(usage, rate).Valid() && PricesOf(usage, rate).RoundedUp() <= MAX_SAFE_INT64
  {
    CountsAre(usage);
    PricedExactlyWhen(usage, rate);
    if WholeCounts(usage) && PartsFit(usage) {
      PricedExactlyInDomain(usage, rate, CountTokens(usage).value);
    }
  }

  lemma PricedExactlyInDomain(usage: TokenUsage, rate: PricingRate, c: TokenCounts)
    requires ValidRate(rate) && CountTokens(usage) == Ok(c) && InDomain(c)
    ensures WholeCounts(usage) && PartsFit(usage)
    ensures var tier := SelectTier(rate, c.input, usage.longContext);
            && (tier.Ok? <==> (AsksLong(usage, rate) ==> rate.longContext.Some?))
            && (tier.Ok? ==>
                  var p := PricesOf(usage, rate);
                  p.Valid() && p.writeNum == tier.value.cacheWriteNum && p.RoundedUp() == TierTotal(c, tier.value))
  {
    TierIs(usage, rate, c);
    var tier := SelectTier(rate, c.input, usage.longContext);
    if tier.Ok? {
      TotalCharges(c, tier.value);
    }
  }

  // ---------- registered prices ----------

  /** Accepted are exactly the registrations of a named provider and a specific model that give a well-formed rate. */
  lemma AcceptedExactly(input: PricingRateInput)
    ensures AcceptableInput(input) <==>
            && input.providerId != "" && Text.Trim(input.modelId) != "" && Text.Trim(input.modelId) != "*"
            && input.inputNum >= 0 && input.inputDen > 0 && input.outputNum >= 0 && input.outputDen > 0
            && (input.cachedNum.Some? ==> input.cachedNum.value >= 0)
            && (input.cachedDen.Some? ==> input.cachedDen.value > 0)
            && (input.cacheWriteNum.Some? ==> input.cacheWriteNum.value >= 0)
            && (input.cacheWriteDen.Some? ==> input.cacheWriteDen.value > 0)
            && (input.longContext.Some? ==> ValidLongContext(input.longContext.value))
    ensures AcceptableInput(input) ==> ValidRate(RateFrom(input))
  {
  }

  /** What a lookup by the registered names finds: the prices given, a missing one 0 and a missing denominator 1. */
  lemma RegisteredPrices(rates: RateTable, input: PricingRateInput)
    ensures var found := GetRate(Registered(rates, input), input.providerId, input.modelId, input.serviceTier);
            && found.Ok?
            && var rate := found.value;
            && rate.inputNum == input.inputNum && rate.inputDen == input.inputDen
            && rate.outputNum == input.outputNum && rate.outputDen == input.outputDen
            && rate.cachedNum == (if input.cachedNum.Some? then input.cachedNum.value else 0)
            && rate.cachedDen == (if input.cachedDen.Some? then input.cachedDen.value else 1)
            && rate.cacheWriteNum == (if input.cacheWriteNum.Some? then input.cacheWriteNum.value else 0)
            && rate.cacheWriteDen == (if input.cacheWriteDen.Some? then input.cacheWriteDen.value else 1)
            && rate.longContextThreshold == input.longContextThreshold && rate.longContext == input.longContext
  {
    PricingLookup.StandardIsLower();
    PricingLookup.LowerAgain(input.serviceTier.GetOr("standard"));
  }
}
