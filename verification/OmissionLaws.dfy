/** What it costs when a response leaves its cached tokens out and they are billed as ordinary input. */
module OmissionLaws {
  import opened Wrappers
  import opened BudgetTypes
  import opened PricingEngine
  import opened PricingLaws
  import Doubles

  /** The same usage with its cached tokens counted as ordinary input. */
  function OmitCached(c: TokenCounts): TokenCounts {
    c.(cached := 0)
  }

  /** With the cached price at most the input price, omitting the cached count undercharges by at most one nano-USD. */
  lemma OmittedCachedWithinOne(c: TokenCounts, tier: ActiveTier)
    requires InDomain(c) && ValidTier(tier)
    requires RateAtMost(tier.cachedNum, tier.cachedDen, tier.inputNum, tier.inputDen)
    ensures TierTotal(c, tier) <= TierTotal(OmitCached(c), tier) + 1
  {
    ChargeSplit(Ordinary(c), c.cached, tier.inputNum, tier.inputDen);
    ChargeRateMonotone(c.cached, tier.cachedNum, tier.cachedDen, tier.inputNum, tier.inputDen);
    assert Ordinary(OmitCached(c)) == Ordinary(c) + c.cached;
  }

  // ---------- when the omission undercharges ----------

  /** The whole nano-USD in the input price of one token. */
  function WholeInput(tier: ActiveTier): nat
    requires ValidTier(tier)
  {
    tier.inputNum / tier.inputDen
  }

  /** What the input price of one token lacks to the next whole nano-USD, in parts of the denominator. */
  function Shortfall(tier: ActiveTier): (g: nat)
    requires ValidTier(tier)
    ensures 0 < g <= tier.inputDen
  {
    tier.inputDen - tier.inputNum % tier.inputDen
  }

  function CachedUnit(tier: ActiveTier): nat
    requires ValidTier(tier)
  {
    Ceil(tier.cachedNum, tier.cachedDen)
  }

  /** The least number of input tokens at which an omission can undercharge: one if a single cached token costs
      more than a single ordinary one, otherwise the number of tokens whose shortfalls add up to a nano-USD. */
  function FirstLoss(tier: ActiveTier): (n: nat)
    requires ValidTier(tier)
    ensures n >= 1
  {
    if CachedUnit(tier) > WholeInput(tier) + 1 then 1 else Ceil(tier.inputDen, Shortfall(tier))
  }

  /** One cached token among `FirstLoss` input tokens, followed by whole multiples of the denominator. */
  function LossCounts(tier: ActiveTier, rounds: nat): (c: TokenCounts)
    requires ValidTier(tier)
    ensures InDomain(c)
  {
    assert rounds * tier.inputDen >= 0;
    TokenCounts(FirstLoss(tier) + rounds * tier.inputDen, 1, 0, 0, 0)
  }

  predicate WholePriceBetween(tier: ActiveTier)
    requires ValidTier(tier)
  {
    CachedUnit(tier) <= WholeInput(tier)
  }

  predicate Within(input: nat, reach: Option<int>) {
    reach.Some? ==> input <= reach.value
  }

  /** Whether no omission undercharges at inputs up to `reach`. */
  predicate OmissionSafe(tier: ActiveTier, reach: Option<int>)
    requires ValidTier(tier)
  {
    WholePriceBetween(tier) || !Within(FirstLoss(tier), reach)
  }

  /** The smallest of the counts of `LossCounts` are within reach exactly when, at a cached price not above
      the input price, the shortfalls of `reach` tokens add up to at least one nano-USD. */
  lemma FirstLossWithin(tier: ActiveTier, reach: nat)
    requires ValidTier(tier)
    requires RateAtMost(tier.cachedNum, tier.cachedDen, tier.inputNum, tier.inputDen)
    ensures FirstLoss(tier) <= reach <==> reach * Shortfall(tier) >= tier.inputDen
  {
    CachedUnitAtMost(tier);
    LeastMultiple(tier.inputDen, Shortfall(tier), reach);
  }

  lemma CachedUnitAtMost(tier: ActiveTier)
    requires ValidTier(tier)
    requires RateAtMost(tier.cachedNum, tier.cachedDen, tier.inputNum, tier.inputDen)
    ensures CachedUnit(tier) <= WholeInput(tier) + 1
  {
    ChargeRateMonotone(1, tier.cachedNum, tier.cachedDen, tier.inputNum, tier.inputDen);
    CeilIsLeast(tier.inputNum, tier.inputDen, WholeInput(tier) + 1);
  }

  lemma LeastMultiple(d: nat, g: nat, n: nat)
    requires d > 0 && g > 0
    ensures Ceil(d, g) <= n <==> n * g >= d
  {
    var k := Ceil(d, g);
    if k <= n {
      assert k * g <= n * g;
    }
    if n * g >= d {
      CeilIsLeast(d, g, n);
    }
  }

  // ---------- the rounded charge of n tokens ----------

  // n tokens at num/den nano-USD, each of which lacks g/den of the whole price u.
  lemma Shortened(n: nat, num: nat, den: nat, u: nat, g: nat)
    requires num + g == u * den
    ensures n * num + n * g == n * u * den
  {
    assert n * num + n * g == n * (num + g);
    assert n * (u * den) == n * u * den;
  }

  lemma CeilJustBelow(a: nat, x: nat, q: nat, d: nat)
    requires d > 0 && a + x == q * d && x < d
    ensures Ceil(a, d) == q
  {
    CeilIsLeast(a, d, q);
    if a == 0 {
      LessByFactor(q, 1, d);
    } else {
      assert (q - 1) * d == q * d - d;
      LessByFactor(q - 1, Ceil(a, d), d);
    }
  }

  lemma CeilFurtherBelow(a: nat, x: nat, q: nat, d: nat)
    requires d > 0 && a + x == q * d && d <= x
    ensures q >= 1 && Ceil(a, d) <= q - 1
  {
    LessByFactor(0, q, d);
    assert (q - 1) * d == q * d - d;
    CeilIsLeast(a, d, q - 1);
  }

  // While the shortfalls stay below one nano-USD every token is charged the whole price.
  lemma ChargedUp(n: nat, num: nat, den: nat, u: nat, g: nat)
    requires den > 0 && num + g == u * den && n * g < den
    ensures Charge(n, num, den) == n * u
  {
    Shortened(n, num, den, u, g);
    CeilJustBelow(n * num, n * g, n * u, den);
  }

  lemma ChargedLess(n: nat, num: nat, den: nat, u: nat, g: nat)
    requires den > 0 && num + g == u * den && n * g >= den
    ensures Charge(n, num, den) <= n * u - 1
  {
    Shortened(n, num, den, u, g);
    CeilFurtherBelow(n * num, n * g, n * u, den);
  }

  // A whole multiple of the denominator is charged exactly.
  lemma ChargeRounds(n: nat, i: nat, num: nat, den: nat)
    requires den > 0
    ensures i * den >= 0 && i * num >= 0
    ensures Charge(n + i * den, num, den) == Charge(n, num, den) + i * num
  {
    var x, a := Charge(n, num, den), n * num;
    assert (n + i * den) * num == a + i * num * den by {
      assert (n + i * den) * num == n * num + i * den * num;
      assert i * den * num == i * num * den;
    }
    WholeAdded(a, i * num, den);
  }

  lemma WholeAdded(a: nat, w: nat, den: nat)
    requires den > 0
    ensures w * den >= 0 && Ceil(a + w * den, den) == Ceil(a, den) + w
  {
    var x, y := Ceil(a, den), Ceil(a + w * den, den);
    assert (x + w) * den == x * den + w * den;
    CeilIsLeast(a + w * den, den, x + w);
    RoomForWhole(a, w * den, w, den, y);
    CeilIsLeast(a, den, y - w);
  }

  lemma ScaledBound(k: nat, a: nat, m: nat, d: nat)
    requires a <= m * d
    ensures k * a <= k * m * d
  {
    assert k * a <= k * (m * d);
    assert k * (m * d) == k * m * d;
  }

  // Tokens that cost at most m each are charged at most m each.
  lemma ChargeAtMost(k: nat, num: nat, den: nat, m: nat)
    requires den > 0 && num <= m * den
    ensures Charge(k, num, den) <= k * m
  {
    ScaledBound(k, num, m, den);
    CeilIsLeast(k * num, den, k * m);
  }

  lemma RoomForWhole(a: nat, b: nat, w: nat, den: nat, z: nat)
    requires den > 0 && a + b <= z * den && w * den <= b
    ensures w <= z && a <= (z - w) * den
  {
    assert (z - w) * den == z * den - w * den;
    LessByFactor(-1, z - w, den);
  }

  // Adding k tokens priced at least m each raises the rounded charge by at least k * m.
  lemma WholePriceAddsUp(o: nat, k: nat, num: nat, den: nat, m: nat)
    requires den > 0 && m * den <= num
    ensures Charge(o, num, den) + k * m <= Charge(o + k, num, den)
  {
    assert (o + k) * num == o * num + k * num;
    assert k * m * den == k * (m * den);
    assert k * (m * den) <= k * num;
    WholeMoved(o * num, k * num, k * m, den);
  }

  lemma WholeMoved(a: nat, b: nat, w: nat, den: nat)
    requires den > 0 && w * den <= b
    ensures Ceil(a, den) + w <= Ceil(a + b, den)
  {
    var z := Ceil(a + b, den);
    RoomForWhole(a, b, w, den, z);
    CeilIsLeast(a, den, z - w);
  }

  // ---------- the first loss, over the prices alone ----------

  // Fewer tokens than the shortfalls need: each part is charged by the token, so nothing is lost.
  lemma TooFewToLose(o: nat, k: nat, num: nat, den: nat, u: nat, g: nat, cachedNum: nat, cachedDen: nat)
    requires den > 0 && num + g == u * den && (o + k) * g < den
    requires cachedDen > 0 && cachedNum <= u * cachedDen
    ensures Charge(o, num, den) + Charge(k, cachedNum, cachedDen) <= Charge(o + k, num, den)
  {
    Distributes(o, k, g);
    ChargedUp(o, num, den, u, g);
    ChargedUp(o + k, num, den, u, g);
    ChargeAtMost(k, cachedNum, cachedDen, u);
    Distributes(o, k, u);
  }

  lemma Distributes(a: nat, b: nat, x: nat)
    ensures a * x + b * x == (a + b) * x && a * x >= 0 && b * x >= 0
  {
  }

  // n - 1 tokens are charged the whole price, the n-th one nano-USD less.
  lemma StepsToLoss(n: nat, num: nat, den: nat, u: nat, g: nat)
    requires den > 0 && u > 0 && num + g == u * den && n >= 1 && (n - 1) * g < den <= n * g && (u - 1) * den <= num
    ensures Charge(n, num, den) == Charge(n - 1, num, den) + u - 1
  {
    ChargedUp(n - 1, num, den, u, g);
    ChargedLess(n, num, den, u, g);
    Distributes(n - 1, 1, u);
    WholePriceAddsUp(n - 1, 1, num, den, u - 1);
  }

  lemma InputPriceParts(tier: ActiveTier)
    requires ValidTier(tier)
    ensures tier.inputNum + Shortfall(tier) == (WholeInput(tier) + 1) * tier.inputDen
    ensures WholeInput(tier) * tier.inputDen <= tier.inputNum
    ensures Charge(0, tier.inputNum, tier.inputDen) == 0
    ensures Charge(1, tier.inputNum, tier.inputDen) <= WholeInput(tier) + 1
    ensures Charge(1, tier.cachedNum, tier.cachedDen) == CachedUnit(tier)
  {
    CeilIsLeast(tier.inputNum, tier.inputDen, WholeInput(tier) + 1);
  }

  lemma FirstLossSteps(tier: ActiveTier)
    requires ValidTier(tier) && !WholePriceBetween(tier)
    ensures var n := FirstLoss(tier);
            Charge(n, tier.inputNum, tier.inputDen) < Charge(n - 1, tier.inputNum, tier.inputDen) + CachedUnit(tier)
    ensures CachedUnit(tier) <= WholeInput(tier) + 1 ==>
              var n := FirstLoss(tier);
              Charge(n - 1, tier.inputNum, tier.inputDen) + CachedUnit(tier) == Charge(n, tier.inputNum, tier.inputDen) + 1
  {
    InputPriceParts(tier);
    if CachedUnit(tier) <= WholeInput(tier) + 1 {
      var n := FirstLoss(tier);
      LeastMultiple(tier.inputDen, Shortfall(tier), n);
      LeastMultiple(tier.inputDen, Shortfall(tier), n - 1);
      StepsToLoss(n, tier.inputNum, tier.inputDen, WholeInput(tier) + 1, Shortfall(tier));
    }
  }

  // ---------- the first loss, as token counts ----------

  lemma LossTotal(tier: ActiveTier, rounds: nat)
    requires ValidTier(tier)
    ensures TierTotal(LossCounts(tier, rounds), tier)
            == Charge(FirstLoss(tier) - 1, tier.inputNum, tier.inputDen) + CachedUnit(tier) + rounds * tier.inputNum
    ensures TierTotal(OmitCached(LossCounts(tier, rounds)), tier)
            == Charge(FirstLoss(tier), tier.inputNum, tier.inputDen) + rounds * tier.inputNum
  {
    InputPriceParts(tier);
    ChargeRounds(FirstLoss(tier) - 1, rounds, tier.inputNum, tier.inputDen);
    ChargeRounds(FirstLoss(tier), rounds, tier.inputNum, tier.inputDen);
  }

  /** Unless a whole price lies between, the counts of `LossCounts` are undercharged when the cached count is omitted. */
  lemma LossCountsLose(tier: ActiveTier, rounds: nat)
    requires ValidTier(tier) && !WholePriceBetween(tier)
    ensures TierTotal(OmitCached(LossCounts(tier, rounds)), tier) < TierTotal(LossCounts(tier, rounds), tier)
  {
    FirstLossSteps(tier);
    LossTotal(tier, rounds);
  }

  lemma OmissionSplits(c: TokenCounts, tier: ActiveTier)
    requires InDomain(c) && ValidTier(tier)
    ensures var o, k := Ordinary(c), c.cached;
            TierTotal(OmitCached(c), tier) - TierTotal(c, tier)
            == Charge(o + k, tier.inputNum, tier.inputDen)
               - Charge(o, tier.inputNum, tier.inputDen) - Charge(k, tier.cachedNum, tier.cachedDen)
  {
    assert Ordinary(OmitCached(c)) == Ordinary(c) + c.cached;
  }

  /** With a whole price between the two the omission never undercharges. */
  lemma WholePriceCovers(c: TokenCounts, tier: ActiveTier)
    requires InDomain(c) && ValidTier(tier) && WholePriceBetween(tier)
    ensures TierTotal(c, tier) <= TierTotal(OmitCached(c), tier)
  {
    var f := WholeInput(tier);
    OmissionSplits(c, tier);
    InputPriceParts(tier);
    CachedAtMost(c.cached, tier, f);
    WholePriceAddsUp(Ordinary(c), c.cached, tier.inputNum, tier.inputDen, f);
  }

  lemma CachedAtMost(k: nat, tier: ActiveTier, m: nat)
    requires ValidTier(tier) && CachedUnit(tier) <= m
    ensures tier.cachedNum <= m * tier.cachedDen
    ensures Charge(k, tier.cachedNum, tier.cachedDen) <= k * m
  {
    assert CachedUnit(tier) * tier.cachedDen <= m * tier.cachedDen;
    ChargeAtMost(k, tier.cachedNum, tier.cachedDen, m);
  }

  /** Fewer tokens than `FirstLoss` are never undercharged. */
  lemma TooFewTokensCover(c: TokenCounts, tier: ActiveTier)
    requires InDomain(c) && ValidTier(tier) && Ordinary(c) + c.cached < FirstLoss(tier)
    ensures TierTotal(c, tier) <= TierTotal(OmitCached(c), tier)
  {
    var o, k := Ordinary(c), c.cached;
    OmissionSplits(c, tier);
    InputPriceParts(tier);
    if k > 0 {
      LeastMultiple(tier.inputDen, Shortfall(tier), o + k);
      CachedAtMost(k, tier, WholeInput(tier) + 1);
      TooFewToLose(o, k, tier.inputNum, tier.inputDen, WholeInput(tier) + 1, Shortfall(tier), tier.cachedNum, tier.cachedDen);
    }
  }

  // What is undercharged has cached tokens and costs at least the parts it loses on.
  lemma LossParts(c: TokenCounts, tier: ActiveTier)
    requires InDomain(c) && ValidTier(tier) && TierTotal(OmitCached(c), tier) < TierTotal(c, tier)
    ensures TierTotal(c, tier) >= CachedUnit(tier)
    ensures TierTotal(c, tier) > Charge(Ordinary(c) + c.cached, tier.inputNum, tier.inputDen)
  {
    OmissionSplits(c, tier);
    InputPriceParts(tier);
    if c.cached > 0 {
      ChargeMonotone(1, c.cached, tier.cachedNum, tier.cachedDen);
    }
  }

  lemma LossAtMost(tier: ActiveTier, o: nat)
    requires ValidTier(tier) && !WholePriceBetween(tier) && FirstLoss(tier) <= o
    ensures var total := TierTotal(LossCounts(tier, 0), tier);
            total <= CachedUnit(tier) || total <= Charge(o, tier.inputNum, tier.inputDen) + 1
  {
    LossTotal(tier, 0);
    FirstLossSteps(tier);
    InputPriceParts(tier);
    ChargeMonotone(FirstLoss(tier), o, tier.inputNum, tier.inputDen);
  }

  /** Every undercharged usage has at least the tokens, and costs at least the total, of the smallest `LossCounts`. */
  lemma LossIsLeast(c: TokenCounts, tier: ActiveTier)
    requires InDomain(c) && ValidTier(tier) && TierTotal(OmitCached(c), tier) < TierTotal(c, tier)
    ensures !WholePriceBetween(tier) && FirstLoss(tier) <= c.input
    ensures TierTotal(LossCounts(tier, 0), tier) <= TierTotal(c, tier)
  {
    if WholePriceBetween(tier) {
      WholePriceCovers(c, tier);
    }
    if Ordinary(c) + c.cached < FirstLoss(tier) {
      TooFewTokensCover(c, tier);
    }
    LossParts(c, tier);
    LossAtMost(tier, Ordinary(c) + c.cached);
  }

  // ---------- every usage at one tier ----------

  ghost predicate NeverUndercharges(tier: ActiveTier, reach: Option<int>)
    requires ValidTier(tier)
  {
    forall c: TokenCounts | InDomain(c) && Within(c.input, reach) ::
      TierTotal(c, tier) <= TierTotal(OmitCached(c), tier)
  }

  /** The documented claim that an omitted cached count never undercharges, made exact for the counts a tier
      prices up to a threshold, or for all counts when there is none: it holds if and only if a whole number
      of nano-USD per token lies between the cached and the input price or the threshold is too low for the
      rounding to add up to a nano-USD. */
  lemma OmittedCachedExact(tier: ActiveTier, reach: Option<int>)
    requires ValidTier(tier)
    ensures NeverUndercharges(tier, reach) <==> OmissionSafe(tier, reach)
  {
    if OmissionSafe(tier, reach) {
      forall c: TokenCounts | InDomain(c) && Within(c.input, reach)
        ensures TierTotal(c, tier) <= TierTotal(OmitCached(c), tier)
      {
        if WholePriceBetween(tier) {
          WholePriceCovers(c, tier);
        } else {
          TooFewTokensCover(c, tier);
        }
      }
    } else {
      LossCountsLose(tier, 0);
      assert Within(LossCounts(tier, 0).input, reach);
    }
  }

  ghost predicate NeverUnderchargesBeyond(tier: ActiveTier, threshold: int)
    requires ValidTier(tier)
  {
    forall c: TokenCounts | InDomain(c) && c.input > threshold :: TierTotal(c, tier) <= TierTotal(OmitCached(c), tier)
  }

  lemma LossCountsPass(tier: ActiveTier, rounds: nat)
    requires ValidTier(tier)
    ensures LossCounts(tier, rounds).input > rounds
  {
    TimesAtLeast(rounds, tier.inputDen);
  }

  lemma TimesAtLeast(i: nat, d: nat)
    requires d >= 1
    ensures i * d >= i
  {
    assert i * d == i * (d - 1) + i;
  }

  /** For the counts beyond a threshold, which the long-context tier prices, only the whole price helps. */
  lemma OmittedCachedBeyondExact(tier: ActiveTier, threshold: int)
    requires ValidTier(tier)
    ensures NeverUnderchargesBeyond(tier, threshold) <==> WholePriceBetween(tier)
  {
    if WholePriceBetween(tier) {
      forall c: TokenCounts | InDomain(c) && c.input > threshold
        ensures TierTotal(c, tier) <= TierTotal(OmitCached(c), tier)
      {
        WholePriceCovers(c, tier);
      }
    } else {
      var rounds := if threshold < 0 then 0 else threshold;
      LossCountsLose(tier, rounds);
      LossCountsPass(tier, rounds);
    }
  }

  // ---------- every priced usage ----------

  /** The usage priced with its cached tokens left out. */
  function Omitting(usage: TokenUsage): TokenUsage {
    usage.(cachedTokens := Some(Integer(0)))
  }

  predicate BothPriced(usage: TokenUsage, rate: PricingRate) {
    CalculateCost(usage, rate).Ok? && CalculateCost(Omitting(usage), rate).Ok?
  }

  lemma OmittingPrices(usage: TokenUsage, rate: PricingRate)
    requires ValidRate(rate) && BothPriced(usage, rate)
    ensures var c, tier := BilledCounts(usage, rate), BilledTier(usage, rate);
            && CalculateCost(usage, rate).value == TierTotal(c, tier)
            && CalculateCost(Omitting(usage), rate).value == TierTotal(OmitCached(c), tier)
  {
    CostIsTierTotal(usage, rate);
    CostIsTierTotal(Omitting(usage), rate);
    assert BilledCounts(Omitting(usage), rate) == OmitCached(BilledCounts(usage, rate));
  }

  /** The prices a request meets when it does not cross the threshold, and how far they reach. */
  function ContextTier(rate: PricingRate, long: bool): (tier: ActiveTier)
    requires long ==> rate.longContext.Some?
    ensures ValidRate(rate) ==> ValidTier(tier)
  {
    if long then LongTier(rate) else ShortTier(rate)
  }

  function ContextReach(rate: PricingRate, long: bool): Option<int> {
    if long then None else rate.longContextThreshold
  }

  function LossUsage(c: TokenCounts, long: bool): TokenUsage {
    TokenUsage(Integer(c.input), Integer(c.output), Some(Integer(c.cached)), None, None, None, long)
  }

  /** Every count of the usage is a JavaScript number. */
  predicate NumbersOnly(usage: TokenUsage) {
    var zero := Integer(0);
    forall count <- [usage.inputTokens, usage.outputTokens, usage.cachedTokens.GetOr(zero),
                     usage.cacheWriteTokens.GetOr(zero), usage.reasoningTokens.GetOr(zero)] ::
      count.IsCount() ==> Doubles.IsDouble(count.n)
  }

  lemma LossUsageNumbers(tier: ActiveTier, rounds: nat, long: bool)
    requires ValidTier(tier) && LossCounts(tier, rounds).input <= Doubles.MAX_SAFE_INTEGER
    ensures NumbersOnly(LossUsage(LossCounts(tier, rounds), long))
  {
    assert Doubles.IsDouble(0) && Doubles.IsDouble(1);
    assert Doubles.IsDouble(LossCounts(tier, rounds).input);
  }

  lemma FirstLossAtMost(tier: ActiveTier)
    requires ValidTier(tier)
    ensures LossCounts(tier, 0).input == FirstLoss(tier) <= tier.inputDen
  {
    LeastMultiple(tier.inputDen, Shortfall(tier), tier.inputDen);
  }

  lemma LossUsagePriced(rate: PricingRate, tier: ActiveTier, rounds: nat, long: bool)
    requires ValidRate(rate) && ValidTier(tier) && !WholePriceBetween(tier)
    requires SelectTier(rate, LossCounts(tier, rounds).input, long) == Ok(tier)
    requires TierTotal(LossCounts(tier, rounds), tier) <= MAX_SAFE_INT64
    ensures var usage := LossUsage(LossCounts(tier, rounds), long);
            && BothPriced(usage, rate) && BilledCounts(usage, rate) == LossCounts(tier, rounds)
            && CalculateCost(Omitting(usage), rate).value < CalculateCost(usage, rate).value
  {
    var usage := LossUsage(LossCounts(tier, rounds), long);
    assert CountTokens(usage) == Ok(LossCounts(tier, rounds));
    assert CountTokens(Omitting(usage)) == Ok(OmitCached(LossCounts(tier, rounds)));
    LossCountsLose(tier, rounds);
    PricedExactlyWhen(usage, rate);
    PricedExactlyWhen(Omitting(usage), rate);
    OmittingPrices(usage, rate);
  }

  ghost predicate NeverUnderbilled(rate: PricingRate, long: bool)
    requires ValidRate(rate)
  {
    forall usage: TokenUsage |
      usage.longContext == long && NumbersOnly(usage) && BothPriced(usage, rate)
      && Within(BilledCounts(usage, rate).input, ContextReach(rate, long)) ::
      CalculateCost(usage, rate).value <= CalculateCost(Omitting(usage), rate).value
  }

  /** The prices are safe up to the threshold, or the cheapest loss does not fit in int64. */
  predicate CostSafe(tier: ActiveTier, reach: Option<int>)
    requires ValidTier(tier)
  {
    OmissionSafe(tier, reach) || TierTotal(LossCounts(tier, 0), tier) > MAX_SAFE_INT64
  }

  lemma NotUnderbilled(usage: TokenUsage, rate: PricingRate, reach: Option<int>)
    requires ValidRate(rate) && BothPriced(usage, rate)
    requires Within(BilledCounts(usage, rate).input, reach) && CostSafe(BilledTier(usage, rate), reach)
    ensures CalculateCost(usage, rate).value <= CalculateCost(Omitting(usage), rate).value
  {
    var c, tier := BilledCounts(usage, rate), BilledTier(usage, rate);
    OmittingPrices(usage, rate);
    if TierTotal(OmitCached(c), tier) < TierTotal(c, tier) {
      LossIsLeast(c, tier);
      assert false;
    }
  }

  /** The exact condition for the costs the engine returns, for requests short of the threshold and for requests
      that ask for the long context. Only a denominator above 2^53 - 1 leaves room for a cheapest loss that
      no JavaScript number can report. */
  lemma OmittedCachedCostExact(rate: PricingRate, long: bool)
    requires ValidRate(rate) && (long ==> rate.longContext.Some?)
    ensures var tier, reach := ContextTier(rate, long), ContextReach(rate, long);
            && (CostSafe(tier, reach) ==> NeverUnderbilled(rate, long))
            && (tier.inputDen <= Doubles.MAX_SAFE_INTEGER ==> (NeverUnderbilled(rate, long) <==> CostSafe(tier, reach)))
  {
    var tier, reach := ContextTier(rate, long), ContextReach(rate, long);
    if CostSafe(tier, reach) {
      forall usage: TokenUsage |
        usage.longContext == long && NumbersOnly(usage) && BothPriced(usage, rate)
        && Within(BilledCounts(usage, rate).input, reach)
        ensures CalculateCost(usage, rate).value <= CalculateCost(Omitting(usage), rate).value
      {
        assert BilledTier(usage, rate) == tier;
        NotUnderbilled(usage, rate, reach);
      }
    } else if tier.inputDen <= Doubles.MAX_SAFE_INTEGER {
      FirstLossAtMost(tier);
      LossUsagePriced(rate, tier, 0, long);
      LossUsageNumbers(tier, 0, long);
    }
  }

  ghost predicate NeverUnderbilledBeyond(rate: PricingRate, threshold: int)
    requires ValidRate(rate)
  {
    forall usage: TokenUsage |
      NumbersOnly(usage) && BothPriced(usage, rate) && BilledCounts(usage, rate).input > threshold ::
      CalculateCost(usage, rate).value <= CalculateCost(Omitting(usage), rate).value
  }

  /** One of the counts of `LossCounts` that pass the threshold can be reported and priced. */
  predicate LossFits(tier: ActiveTier, rounds: nat, threshold: int)
    requires ValidTier(tier)
  {
    && threshold < LossCounts(tier, rounds).input <= Doubles.MAX_SAFE_INTEGER
    && TierTotal(LossCounts(tier, rounds), tier) <= MAX_SAFE_INT64
  }

  /** Beyond the threshold a whole price in the long-context tier is enough, and without one omission lowers
      the cost of every count of `LossCounts` that passes the threshold and fits. */
  lemma OmittedCachedCostBeyond(rate: PricingRate, rounds: nat)
    requires ValidRate(rate) && rate.longContextThreshold.Some? && rate.longContext.Some?
    ensures var tier, threshold := LongTier(rate), rate.longContextThreshold.value;
            && ValidTier(tier)
            && (WholePriceBetween(tier) ==> NeverUnderbilledBeyond(rate, threshold))
            && (LossFits(tier, rounds, threshold) ==> (NeverUnderbilledBeyond(rate, threshold) <==> WholePriceBetween(tier)))
  {
    var tier, threshold := LongTier(rate), rate.longContextThreshold.value;
    if WholePriceBetween(tier) {
      forall usage: TokenUsage |
        NumbersOnly(usage) && BothPriced(usage, rate) && BilledCounts(usage, rate).input > threshold
        ensures CalculateCost(usage, rate).value <= CalculateCost(Omitting(usage), rate).value
      {
        assert BilledTier(usage, rate) == tier;
        NotUnderbilled(usage, rate, None);
      }
    } else if LossFits(tier, rounds, threshold) {
      LossUsagePriced(rate, tier, rounds, false);
      LossUsageNumbers(tier, rounds, false);
    }
  }
}
