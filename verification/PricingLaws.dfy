/** What the cost function guarantees: distance from the exact rational cost, order, splitting,
    and behaviour across the context threshold. */
module PricingLaws {
  import opened Wrappers
  import opened BudgetTypes
  import opened PricingEngine

  function Ceil(n: nat, d: nat): nat
    requires d > 0
  {
    CeilDiv(n, d).value
  }

  /** The charge for t tokens at num/den nano-USD each. */
  function Charge(t: nat, num: nat, den: nat): nat
    requires den > 0
  {
    Ceil(t * num, den)
  }

  function Ordinary(c: TokenCounts): nat
    requires InDomain(c)
  {
    c.input - c.cached - c.cacheWrite
  }

  function TierTotal(c: TokenCounts, tier: ActiveTier): nat
    requires InDomain(c) && ValidTier(tier)
  {
    Charge(Ordinary(c), tier.inputNum, tier.inputDen)
    + Charge(c.cached, tier.cachedNum, tier.cachedDen)
    + Charge(c.cacheWrite, tier.cacheWriteNum, tier.cacheWriteDen)
    + Charge(c.output, tier.outputNum, tier.outputDen)
  }

  // ---------- one part ----------

  lemma LessByFactor(a: int, b: int, d: int)
    requires d > 0 && a * d < b * d
    ensures a < b
  {
  }

  lemma CeilIsLeast(n: nat, d: nat, c: nat)
    requires d > 0 && n <= c * d
    ensures Ceil(n, d) <= c
  {
    if n > 0 {
      LessByFactor(Ceil(n, d) - 1, c, d);
    }
  }

  lemma ChargeMonotone(t: nat, t': nat, num: nat, den: nat)
    requires den > 0 && t <= t'
    ensures Charge(t, num, den) <= Charge(t', num, den)
  {
    assert t * num <= t' * num;
    CeilIsLeast(t * num, den, Charge(t', num, den));
  }

  lemma ChargeSplit(t: nat, t': nat, num: nat, den: nat)
    requires den > 0
    ensures Charge(t + t', num, den) <= Charge(t, num, den) + Charge(t', num, den) <= Charge(t + t', num, den) + 1
  {
    var a, b := t * num, t' * num;
    assert (t + t') * num == a + b;
    SplitCeil(a, b, den);
  }

  lemma SplitCeil(a: nat, b: nat, den: nat)
    requires den > 0
    ensures Ceil(a + b, den) <= Ceil(a, den) + Ceil(b, den) <= Ceil(a + b, den) + 1
  {
    var x, y, z := Ceil(a, den), Ceil(b, den), Ceil(a + b, den);
    Distributes(x, y, den);
    CeilIsLeast(a + b, den, x + y);
    if a > 0 && b > 0 {
      Distributes(x - 1, y - 1, den);
      LessByFactor(x - 1 + (y - 1), z, den);
    }
  }

  lemma Distributes(x: int, y: int, d: int)
    ensures (x + y) * d == x * d + y * d
  {
  }

  // A higher rational rate never charges less.
  lemma ChargeRateMonotone(t: nat, num: nat, den: nat, num': nat, den': nat)
    requires den > 0 && den' > 0 && num * den' <= num' * den
    ensures Charge(t, num, den) <= Charge(t, num', den')
  {
    var c := Charge(t, num', den');
    assert t * num * den' <= t * num' * den by {
      assert t * num * den' == t * (num * den');
      assert t * num' * den == t * (num' * den);
      assert t * (num * den') <= t * (num' * den);
    }
    CrossMultiply(t * num, den, t * num', den', c);
    CeilIsLeast(t * num, den, c);
  }

  lemma CrossMultiply(n: nat, den: nat, n': nat, den': nat, c: nat)
    requires den' > 0 && n * den' <= n' * den && n' <= c * den'
    ensures n <= c * den
  {
    assert n' * den <= c * den' * den;
    assert c * den' * den == c * den * den';
    assert n * den' < (c * den + 1) * den';
    LessByFactor(n, c * den + 1, den');
  }

  // ---------- the whole cost ----------

  /** The token counts behind a successful cost. */
  function BilledCounts(usage: TokenUsage, rate: PricingRate): (c: TokenCounts)
    requires CalculateCost(usage, rate).Ok?
    ensures InDomain(c)
  {
    CountTokens(usage).value
  }

  /** The prices behind a successful cost. */
  function BilledTier(usage: TokenUsage, rate: PricingRate): (tier: ActiveTier)
    requires ValidRate(rate) && CalculateCost(usage, rate).Ok?
    ensures ValidTier(tier)
  {
    SelectTier(rate, CountTokens(usage).value.input, usage.longContext).value
  }

  /** For a registered rate the cost is the total of the four charges at the active tier. */
  lemma CostIsTierTotal(usage: TokenUsage, rate: PricingRate)
    requires ValidRate(rate) && CalculateCost(usage, rate).Ok?
    ensures CalculateCost(usage, rate).value == TierTotal(BilledCounts(usage, rate), BilledTier(usage, rate))
  {
    PartsPriced(BilledCounts(usage, rate), BilledTier(usage, rate));
  }

  /** A usage is priced at a registered rate exactly when its counts are integers in the domain, a tier
      and a cache-write price exist for it, and the total fits; no divisor fault can occur. */
  lemma PricedExactlyWhen(usage: TokenUsage, rate: PricingRate)
    requires ValidRate(rate)
    ensures CalculateCost(usage, rate).Ok? <==>
            var counted := CountTokens(usage);
            && counted.Ok? && InDomain(counted.value)
            && var tier := SelectTier(rate, counted.value.input, usage.longContext);
            && tier.Ok?
            && (counted.value.cacheWrite > 0 ==> tier.value.cacheWriteNum > 0)
            && TierTotal(counted.value, tier.value) <= MAX_SAFE_INT64
  {
    var counted := CountTokens(usage);
    if counted.Ok? && InDomain(counted.value) {
      var tier := SelectTier(rate, counted.value.input, usage.longContext);
      if tier.Ok? {
        PartsPriced(counted.value, tier.value);
      }
    }
  }

  lemma PartsPriced(c: TokenCounts, tier: ActiveTier)
    requires InDomain(c) && ValidTier(tier)
    ensures PriceParts(c, tier) == Ok(TierTotal(c, tier))
  {
  }

  function ExactPart(t: nat, num: nat, den: nat): real
    requires den > 0
  {
    (t * num) as real / den as real
  }

  /** The exact rational cost, before any rounding. */
  function ExactCost(c: TokenCounts, tier: ActiveTier): real
    requires InDomain(c) && ValidTier(tier)
  {
    ExactPart(Ordinary(c), tier.inputNum, tier.inputDen)
    + ExactPart(c.cached, tier.cachedNum, tier.cachedDen)
    + ExactPart(c.cacheWrite, tier.cacheWriteNum, tier.cacheWriteDen)
    + ExactPart(c.output, tier.outputNum, tier.outputDen)
  }

  function One(t: nat): nat {
    if t > 0 then 1 else 0
  }

  function NonzeroParts(c: TokenCounts): (n: nat)
    requires InDomain(c)
    ensures n <= 4
  {
    One(Ordinary(c)) + One(c.cached) + One(c.cacheWrite) + One(c.output)
  }

  lemma PartBounds(t: nat, num: nat, den: nat)
    requires den > 0
    ensures ExactPart(t, num, den) <= Charge(t, num, den) as real
    ensures t > 0 ==> Charge(t, num, den) as real < ExactPart(t, num, den) + 1.0
    ensures t == 0 ==> Charge(t, num, den) == 0 && ExactPart(t, num, den) == 0.0
  {
    RealCeil(t * num, den);
  }

  lemma RealCeil(n: nat, den: nat)
    requires den > 0
    ensures var x := n as real / den as real; x <= Ceil(n, den) as real < x + 1.0
  {
    var c := Ceil(n, den);
    RatioAtMost(n, c, den);
    if n > 0 {
      RatioAbove(n, c - 1, den);
    }
  }

  lemma RatioAtMost(n: nat, c: nat, den: nat)
    requires den > 0 && n <= c * den
    ensures n as real / den as real <= c as real
  {
    RealProduct(c, den);
    RealAtMostByFactor(n as real / den as real, c as real, den as real);
  }

  lemma RatioAbove(n: nat, k: int, den: nat)
    requires den > 0 && k * den < n
    ensures k as real < n as real / den as real
  {
    RealProduct(k, den);
    RealLessByFactor(k as real, n as real / den as real, den as real);
  }

  lemma RealProduct(k: int, den: nat)
    ensures (k * den) as real == k as real * den as real
  {
  }

  lemma RealLessByFactor(a: real, b: real, d: real)
    requires d > 0.0 && a * d < b * d
    ensures a < b
  {
  }

  lemma RealAtMostByFactor(a: real, b: real, d: real)
    requires d > 0.0 && a * d <= b * d
    ensures a <= b
  {
  }

  /** The charged cost is never below the exact cost and exceeds it by less than one nano-USD
      for each nonzero part, so by less than four in all. */
  lemma CostBounds(usage: TokenUsage, rate: PricingRate)
    requires ValidRate(rate) && CalculateCost(usage, rate).Ok?
    ensures var cost := CalculateCost(usage, rate).value;
            var c := BilledCounts(usage, rate);
            var exact := ExactCost(c, BilledTier(usage, rate));
            && exact <= cost as real
            && (NonzeroParts(c) == 0 ==> cost == 0)
            && (NonzeroParts(c) > 0 ==> cost as real < exact + NonzeroParts(c) as real)
            && cost <= MAX_SAFE_INT64
  {
    CostIsTierTotal(usage, rate);
    var c, tier := BilledCounts(usage, rate), BilledTier(usage, rate);
    PartBounds(Ordinary(c), tier.inputNum, tier.inputDen);
    PartBounds(c.cached, tier.cachedNum, tier.cachedDen);
    PartBounds(c.cacheWrite, tier.cacheWriteNum, tier.cacheWriteDen);
    PartBounds(c.output, tier.outputNum, tier.outputDen);
  }

  // ---------- order ----------

  /** u' reports at least the tokens of u in every billed part. */
  predicate FewerTokens(c: TokenCounts, c': TokenCounts)
    requires InDomain(c) && InDomain(c')
  {
    Ordinary(c) <= Ordinary(c') && c.cached <= c'.cached && c.cacheWrite <= c'.cacheWrite && c.output <= c'.output
  }

  predicate RateAtMost(num: int, den: int, num': int, den': int) {
    num * den' <= num' * den
  }

  /** Every price of one tier is at most the same price of the other. */
  predicate TierAtMost(tier: ActiveTier, tier': ActiveTier) {
    && RateAtMost(tier.inputNum, tier.inputDen, tier'.inputNum, tier'.inputDen)
    && RateAtMost(tier.outputNum, tier.outputDen, tier'.outputNum, tier'.outputDen)
    && RateAtMost(tier.cachedNum, tier.cachedDen, tier'.cachedNum, tier'.cachedDen)
    && RateAtMost(tier.cacheWriteNum, tier.cacheWriteDen, tier'.cacheWriteNum, tier'.cacheWriteDen)
  }

  lemma TotalMonotone(c: TokenCounts, tier: ActiveTier, c': TokenCounts, tier': ActiveTier)
    requires InDomain(c) && InDomain(c') && FewerTokens(c, c')
    requires ValidTier(tier) && ValidTier(tier') && TierAtMost(tier, tier')
    ensures TierTotal(c, tier) <= TierTotal(c', tier')
  {
    ChargeMonotone(Ordinary(c), Ordinary(c'), tier.inputNum, tier.inputDen);
    ChargeMonotone(c.cached, c'.cached, tier.cachedNum, tier.cachedDen);
    ChargeMonotone(c.cacheWrite, c'.cacheWrite, tier.cacheWriteNum, tier.cacheWriteDen);
    ChargeMonotone(c.output, c'.output, tier.outputNum, tier.outputDen);
    ChargeRateMonotone(Ordinary(c'), tier.inputNum, tier.inputDen, tier'.inputNum, tier'.inputDen);
    ChargeRateMonotone(c'.cached, tier.cachedNum, tier.cachedDen, tier'.cachedNum, tier'.cachedDen);
    ChargeRateMonotone(c'.cacheWrite, tier.cacheWriteNum, tier.cacheWriteDen, tier'.cacheWriteNum, tier'.cacheWriteDen);
    ChargeRateMonotone(c'.output, tier.outputNum, tier.outputDen, tier'.outputNum, tier'.outputDen);
  }

  /** More tokens never cost less within one context tier, and across the long-context threshold
      whenever every long-context price is at least the short one. */
  lemma CostMonotone(usage: TokenUsage, usage': TokenUsage, rate: PricingRate)
    requires ValidRate(rate)
    requires CalculateCost(usage, rate).Ok? && CalculateCost(usage', rate).Ok?
    requires FewerTokens(BilledCounts(usage, rate), BilledCounts(usage', rate))
    requires || BilledTier(usage, rate) == BilledTier(usage', rate)
             || ((usage.longContext ==> usage'.longContext)
                 && rate.longContext.Some? && TierAtMost(ShortTier(rate), LongTier(rate)))
    ensures CalculateCost(usage, rate).value <= CalculateCost(usage', rate).value
  {
    CostIsTierTotal(usage, rate);
    CostIsTierTotal(usage', rate);
    TotalMonotone(BilledCounts(usage, rate), BilledTier(usage, rate),
                  BilledCounts(usage', rate), BilledTier(usage', rate));
  }

  function AddCounts(c: TokenCounts, c': TokenCounts): TokenCounts {
    TokenCounts(c.input + c'.input, c.cached + c'.cached, c.cacheWrite + c'.cacheWrite,
                c.output + c'.output, c.reasoning + c'.reasoning)
  }

  lemma TotalSplit(c: TokenCounts, c': TokenCounts, tier: ActiveTier)
    requires InDomain(c) && InDomain(c') && ValidTier(tier)
    ensures InDomain(AddCounts(c, c'))
    ensures TierTotal(AddCounts(c, c'), tier) <= TierTotal(c, tier) + TierTotal(c', tier)
    ensures TierTotal(c, tier) + TierTotal(c', tier) <= TierTotal(AddCounts(c, c'), tier) + 4
  {
    ChargeSplit(Ordinary(c), Ordinary(c'), tier.inputNum, tier.inputDen);
    ChargeSplit(c.cached, c'.cached, tier.cachedNum, tier.cachedDen);
    ChargeSplit(c.cacheWrite, c'.cacheWrite, tier.cacheWriteNum, tier.cacheWriteDen);
    ChargeSplit(c.output, c'.output, tier.outputNum, tier.outputDen);
  }

  /** Splitting a usage in two within one tier never lowers the cost and raises it by at most four nano-USD,
      one for each part. */
  lemma CostSplit(whole: TokenUsage, first: TokenUsage, second: TokenUsage, rate: PricingRate)
    requires ValidRate(rate)
    requires CalculateCost(whole, rate).Ok? && CalculateCost(first, rate).Ok? && CalculateCost(second, rate).Ok?
    requires BilledCounts(whole, rate) == AddCounts(BilledCounts(first, rate), BilledCounts(second, rate))
    requires BilledTier(first, rate) == BilledTier(whole, rate) == BilledTier(second, rate)
    ensures var cost, parts := CalculateCost(whole, rate).value,
                               CalculateCost(first, rate).value + CalculateCost(second, rate).value;
            cost <= parts <= cost + 4
  {
    CostIsTierTotal(whole, rate);
    CostIsTierTotal(first, rate);
    CostIsTierTotal(second, rate);
    TotalSplit(BilledCounts(first, rate), BilledCounts(second, rate), BilledTier(whole, rate));
  }

  // ---------- discounted tiers ----------

  /** One registered rate is at least another in the short context, and in the long context when both have one. */
  predicate RateDominates(high: PricingRate, low: PricingRate) {
    && high.longContextThreshold == low.longContextThreshold
    && TierAtMost(ShortTier(low), ShortTier(high))
    && high.longContext.Some? == low.longContext.Some?
    && (high.longContext.Some? ==> TierAtMost(LongTier(low), LongTier(high)))
  }

  /** Settling at a dominating rate never charges less. */
  lemma DominatingRateCostsMore(usage: TokenUsage, high: PricingRate, low: PricingRate)
    requires ValidRate(high) && ValidRate(low) && RateDominates(high, low)
    requires CalculateCost(usage, high).Ok? && CalculateCost(usage, low).Ok?
    ensures CalculateCost(usage, low).value <= CalculateCost(usage, high).value
  {
    CostIsTierTotal(usage, high);
    CostIsTierTotal(usage, low);
    TotalMonotone(BilledCounts(usage, low), BilledTier(usage, low),
                  BilledCounts(usage, high), BilledTier(usage, high));
  }
}
