/** What a successful normalisation guarantees to pricing and to the customer's bill. */
module NormalizerLaws {
  import opened Wrappers
  import opened BudgetTypes
  import opened PricingEngine
  import opened OmissionLaws
  import opened PricingLaws
  import opened UsageNormalizer
  import Doubles

  /** Every count that reached us was a JavaScript number. */
  ghost predicate AllDoubles(fields: Fields) {
    forall name | name in fields && fields[name].Number? && fields[name].number.IsCount() ::
      Doubles.IsDouble(fields[name].number.n)
  }

  ghost predicate DoublesOnly(p: Params) {
    p.usage.Some? ==>
      var u := p.usage.value;
      AllDoubles(u.top) && AllDoubles(u.promptDetails) && AllDoubles(u.inputDetails)
      && AllDoubles(u.completionDetails) && AllDoubles(u.outputDetails)
  }

  ghost predicate ValidRates(rates: RateTable) {
    forall key | key in rates :: ValidRate(rates[key])
  }

  function EffectiveRate(p: Params): Result<PricingRate, BudgetError> {
    GetRate(p.rates, p.providerId, p.modelId, Some(EffectiveTier(p)))
  }

  lemma ReasoningWithinOutput(audit: AuditVerdict, u: UsageReport, output: nat)
    requires SettleReasoning(audit, u, output).Ok?
    requires AllDoubles(u.top) && AllDoubles(u.completionDetails) && AllDoubles(u.outputDetails)
    ensures var (reasoning, total) := SettleReasoning(audit, u, output).value; reasoning <= total
  {
    var (reasoning, total) := SettleReasoning(audit, u, output).value;
    if audit.separateReasoning {
      assert Doubles.IsDouble(0);
      Doubles.AddAtLeast(output, reasoning, reasoning);
    }
  }

  /** A successful normalisation has a priced tier, is billed at a discounted tier only if the provider said so,
      keeps reasoning within output, and keeps the cache counts within the input unless the input is so large
      that adding 1 to it is lost to rounding. Pricing can then refuse it for three reasons only. */
  lemma NormalizedIsInPricingDomain(p: Params)
    requires NormalizeAndReconcile(p).Ok? && DoublesOnly(p) && ValidRates(p.rates)
    ensures var r := NormalizeAndReconcile(p).value;
            && EffectiveRate(p).Ok? && ValidRate(EffectiveRate(p).value)
            && r.usage.serviceTier == Some(r.effectiveTier)
            && (r.effectiveTier in ["batch", "flex"] ==> ReportedTier(p) == Some(r.effectiveTier))
            && CountTokens(r.usage).Ok?
            && var c := CountTokens(r.usage).value;
            && c.reasoning <= c.output
            && (Doubles.Add(c.input, 1) > c.input ==>
                  && InDomain(c)
                  && var cost := CalculateCost(r.usage, EffectiveRate(p).value);
                  cost.Err? ==> cost.error.InvalidPricing?
                                && cost.error.reason in {NoLongContextPrice, NoCacheWritePrice, CostOverflow})
  {
    var c := SettleCounts(p, p.audit.value, p.usage.value).value;
    assert CountTokens(NormalizeAndReconcile(p).value.usage) == Ok(c);
    CountsInDomain(p, p.audit.value, p.usage.value);
    RateFound(p);
    if InDomain(c) {
      DomainErrors(ToUsage(c, EffectiveTier(p)), EffectiveRate(p).value);
    }
  }

  lemma RateFound(p: Params)
    requires EffectiveRate(p).Ok? && ValidRates(p.rates)
    ensures ValidRate(EffectiveRate(p).value)
  {
  }

  lemma CountsInDomain(p: Params, audit: AuditVerdict, u: UsageReport)
    requires SettleCounts(p, audit, u).Ok?
    requires AllDoubles(u.top) && AllDoubles(u.completionDetails) && AllDoubles(u.outputDetails)
    ensures var c := SettleCounts(p, audit, u).value;
            c.reasoning <= c.output && (Doubles.Add(c.input, 1) > c.input ==> InDomain(c))
  {
    var c := SettleCounts(p, audit, u).value;
    ReasoningWithinOutput(audit, u, RequiredCount(RawOutput(audit.kind, u.top)).value);
    if Doubles.Add(c.input, 1) > c.input {
      PartitionHolds(c.cached, c.cacheWrite, c.input);
    }
  }

  lemma DomainErrors(usage: TokenUsage, rate: PricingRate)
    requires ValidRate(rate) && CountTokens(usage).Ok? && InDomain(CountTokens(usage).value)
    ensures var cost := CalculateCost(usage, rate);
            cost.Err? ==> cost.error.InvalidPricing?
                          && cost.error.reason in {NoLongContextPrice, NoCacheWritePrice, CostOverflow}
  {
    var c := CountTokens(usage).value;
    var tier := SelectTier(rate, c.input, usage.longContext);
    if tier.Ok? {
      PartsPriced(c, tier.value);
    }
  }

  lemma PartitionHolds(cached: nat, write: nat, input: nat)
    requires Doubles.Add(cached, write) <= input < Doubles.Add(input, 1)
    ensures cached + write <= input
  {
    if cached + write > input {
      Doubles.RoundMonotone(input + 1, cached + write);
    }
  }

  /** A chat completion that reports all of its input as cached and one more token as written. */
  function OverfullReport(input: nat): UsageReport {
    UsageReport(map[PromptTokens := Number(Integer(input)), CompletionTokens := Number(Integer(0)),
                    CachedTokens := Number(Integer(input)), CacheWriteTokens := Number(Integer(1))],
                map[], map[], map[], map[])
  }

  lemma OverfullFields(input: nat)
    ensures var u := OverfullReport(input);
            && RawInput(OpenAiChatCompletions, u.top) == Number(Integer(input))
            && RawOutput(OpenAiChatCompletions, u.top) == Number(Integer(0))
            && RawTopReasoning(u) == Missing && RawDetailReasoning(u) == Missing
            && RawCached(u) == Number(Integer(input)) && RawCacheWrite(u) == Number(Integer(1))
  {
  }

  lemma OverfullDoubles(input: nat)
    requires Doubles.IsDouble(input)
    ensures AllDoubles(OverfullReport(input).top)
  {
    assert Doubles.IsDouble(0) && Doubles.IsDouble(1);
  }

  /** Above 2^53 the domain claim fails: for every input whose successor rounds back to it there is a report
      that normalises but that pricing refuses, its cached and cache-write counts exceeding the input by one. */
  lemma LargeInputEscapesDomain(p: Params, input: nat)
    requires Doubles.IsDouble(input) && Doubles.Add(input, 1) <= input
    requires p.audit == Ok(AuditVerdict(OpenAiChatCompletions, false)) && p.expectedKind.None?
    requires p.usage == Some(OverfullReport(input)) && EffectiveRate(p).Ok?
    ensures DoublesOnly(p)
    ensures NormalizeAndReconcile(p).Ok?
    ensures CalculateCost(NormalizeAndReconcile(p).value.usage, EffectiveRate(p).value) == Err(InvalidPricing(BadPartition))
  {
    OverfullFields(input);
    OverfullDoubles(input);
    PlainCounts(p, p.audit.value, p.usage.value, input, input, 1);
  }

  /** A batch or flex request whose response names no tier is billed at the standard rate, which never costs
      less than the requested tier when the standard rate dominates it. */
  lemma UnreportedDiscountNotGranted(p: Params, requested: string)
    requires requested in ["batch", "flex"] && p.requestedTier == Words(requested) && ReportedTier(p).None?
    requires NormalizeAndReconcile(p).Ok? && ValidRates(p.rates)
    ensures NormalizeAndReconcile(p).value.effectiveTier == "standard"
    ensures var usage := NormalizeAndReconcile(p).value.usage;
            var asked := GetRate(p.rates, p.providerId, p.modelId, Some(requested));
            asked.Ok? && RateDominates(EffectiveRate(p).value, asked.value)
            && CalculateCost(usage, asked.value).Ok? && CalculateCost(usage, EffectiveRate(p).value).Ok? ==>
              CalculateCost(usage, asked.value).value <= CalculateCost(usage, EffectiveRate(p).value).value
  {
    var usage := NormalizeAndReconcile(p).value.usage;
    var asked := GetRate(p.rates, p.providerId, p.modelId, Some(requested));
    if asked.Ok? && RateDominates(EffectiveRate(p).value, asked.value)
       && CalculateCost(usage, asked.value).Ok? && CalculateCost(usage, EffectiveRate(p).value).Ok? {
      DominatingRateCostsMore(usage, EffectiveRate(p).value, asked.value);
    }
  }

  const CACHED_FIELDS: set<FieldName> := {CachedTokens, ReportedCachedTokens, CacheReadInputTokens}

  /** The same response with every cached-token field left out. */
  function WithoutCached(p: Params): Params
    requires p.usage.Some?
  {
    var u := p.usage.value;
    p.(usage := Some(u.(top := u.top - CACHED_FIELDS,
                        promptDetails := u.promptDetails - {CachedTokens},
                        inputDetails := u.inputDetails - {CachedTokens})))
  }

  /** The same fields except that some are missing. */
  ghost predicate Lacking(fields: Fields, dropped: set<FieldName>, fields': Fields) {
    forall name: FieldName :: Get(fields', name) == if name in dropped then Missing else Get(fields, name)
  }

  lemma RemovalLacks(fields: Fields, dropped: set<FieldName>)
    ensures Lacking(fields, dropped, fields - dropped)
  {
  }

  lemma SameTopFields(kind: EndpointKind, top: Fields, top': Fields)
    requires Lacking(top, CACHED_FIELDS, top')
    ensures RawInput(kind, top') == RawInput(kind, top) && RawOutput(kind, top') == RawOutput(kind, top)
    ensures Get(top', ServiceTier) == Get(top, ServiceTier)
  {
  }

  lemma SameCounts(u: UsageReport, u': UsageReport)
    requires Lacking(u.top, CACHED_FIELDS, u'.top)
    requires Lacking(u.promptDetails, {CachedTokens}, u'.promptDetails)
    requires Lacking(u.inputDetails, {CachedTokens}, u'.inputDetails)
    requires u'.completionDetails == u.completionDetails && u'.outputDetails == u.outputDetails
    ensures RawTopReasoning(u') == RawTopReasoning(u) && RawDetailReasoning(u') == RawDetailReasoning(u)
    ensures RawCacheWrite(u') == RawCacheWrite(u) && RawCached(u') == Missing
  {
  }

  lemma OmissionCounts(p: Params, audit: AuditVerdict, u: UsageReport, p': Params, u': UsageReport)
    requires SettleCounts(p, audit, u).Ok? && p'.rate == p.rate && p'.cachingDisabled == p.cachingDisabled
    requires RawInput(audit.kind, u'.top) == RawInput(audit.kind, u.top)
    requires RawOutput(audit.kind, u'.top) == RawOutput(audit.kind, u.top)
    requires RawTopReasoning(u') == RawTopReasoning(u) && RawDetailReasoning(u') == RawDetailReasoning(u)
    requires RawCacheWrite(u') == RawCacheWrite(u) && RawCached(u') == Missing
    ensures SettleCounts(p', audit, u') == Ok(SettleCounts(p, audit, u).value.(cached := 0))
  {
    var cached, write := OptionalCount(RawCached(u)).value.GetOr(0), SettleCacheWrite(p, u).value;
    Doubles.RoundMonotone(write, cached + write);
  }

  lemma OmissionNormalizes(p: Params)
    requires NormalizeAndReconcile(p).Ok?
    ensures var r, r' := NormalizeAndReconcile(p).value, NormalizeAndReconcile(WithoutCached(p));
            r' == Ok(r.(usage := r.usage.(cachedTokens := Some(Integer(0)))))
  {
    var p' := WithoutCached(p);
    var u, u' := p.usage.value, p'.usage.value;
    RemovalLacks(u.top, CACHED_FIELDS);
    RemovalLacks(u.promptDetails, {CachedTokens});
    RemovalLacks(u.inputDetails, {CachedTokens});
    SameTopFields(p.audit.value.kind, u.top, u'.top);
    SameCounts(u, u');
    OmissionCounts(p, p.audit.value, u, p', u');
    SameTier(p, p');
  }

  lemma SameTier(p: Params, p': Params)
    requires p.usage.Some? && p'.usage.Some? && p' == p.(usage := p'.usage)
    requires Get(p'.usage.value.top, ServiceTier) == Get(p.usage.value.top, ServiceTier)
    ensures EffectiveTier(p') == EffectiveTier(p)
  {
  }

  /** The cost a response is settled at. */
  function Bill(p: Params): Result<nat, BudgetError> {
    var normalized :- NormalizeAndReconcile(p);
    var rate :- EffectiveRate(p);
    CalculateCost(normalized.usage, rate)
  }

  /** The response and the one without its cached fields are billed, both at the rate. */
  predicate BothBilled(p: Params, rate: PricingRate) {
    EffectiveRate(p) == Ok(rate) && Bill(p).Ok? && Bill(WithoutCached(p)).Ok?
  }

  function BilledUsage(p: Params): TokenUsage
    requires Bill(p).Ok?
  {
    NormalizeAndReconcile(p).value.usage
  }

  lemma OmissionBills(p: Params, rate: PricingRate)
    requires NormalizeAndReconcile(p).Ok? && EffectiveRate(p) == Ok(rate)
    ensures Bill(p) == CalculateCost(NormalizeAndReconcile(p).value.usage, rate)
    ensures Bill(WithoutCached(p)) == CalculateCost(Omitting(NormalizeAndReconcile(p).value.usage), rate)
  {
    OmissionNormalizes(p);
    RemovalLacks(p.usage.value.top, CACHED_FIELDS);
    SameTier(p, WithoutCached(p));
  }

  /** Leaving the cached count out of a response lowers the bill by at most one nano-USD when the cached price
      is at most the input price, and never when a whole price per token lies between the two. */
  lemma OmissionCost(p: Params, rate: PricingRate)
    requires p.usage.Some? && BothBilled(p, rate) && ValidRate(rate)
    ensures var tier := BilledTier(BilledUsage(p), rate);
            && (RateAtMost(tier.cachedNum, tier.cachedDen, tier.inputNum, tier.inputDen) ==>
                  Bill(p).value <= Bill(WithoutCached(p)).value + 1)
            && (WholePriceBetween(tier) ==> Bill(p).value <= Bill(WithoutCached(p)).value)
  {
    var usage := BilledUsage(p);
    var tier := BilledTier(usage, rate);
    OmissionBills(p, rate);
    OmittingPrices(usage, rate);
    if RateAtMost(tier.cachedNum, tier.cachedDen, tier.inputNum, tier.inputDen) {
      OmittedCachedWithinOne(BilledCounts(usage, rate), tier);
    }
    if WholePriceBetween(tier) {
      WholePriceCovers(BilledCounts(usage, rate), tier);
    }
  }

  /** A response of `input` prompt tokens, one of them cached, in the words of every endpoint. */
  function CachedReport(input: nat): UsageReport {
    var n, none := Number(Integer(input)), Number(Integer(0));
    UsageReport(map[PromptTokens := n, InputTokens := n, CompletionTokens := none, OutputTokens := none,
                    CachedTokens := Number(Integer(1)), CacheWriteTokens := none],
                map[], map[], map[], map[])
  }

  lemma CachedFields(kind: EndpointKind, input: nat)
    ensures var u := CachedReport(input);
            && RawInput(kind, u.top) == Number(Integer(input)) && RawOutput(kind, u.top) == Number(Integer(0))
            && RawTopReasoning(u) == Missing && RawDetailReasoning(u) == Missing
            && RawCached(u) == Number(Integer(1)) && RawCacheWrite(u) == Number(Integer(0))
            && Get(u.top, ServiceTier) == Missing
  {
  }

  lemma CachedNormalizes(p: Params, input: nat)
    requires p.audit.Ok? && (p.expectedKind.Some? ==> p.audit.value.kind == p.expectedKind.value)
    requires p.usage == Some(CachedReport(input)) && input >= 1 && EffectiveRate(p).Ok?
    ensures var tier := EffectiveTier(p);
            NormalizeAndReconcile(p) == Ok(Normalized(ToUsage(TokenCounts(input, 1, 0, 0, 0), tier), tier))
  {
    CachedFields(p.audit.value.kind, input);
    PlainCounts(p, p.audit.value, p.usage.value, input, 1, 0);
  }

  // A report without reasoning or output.
  lemma PlainCounts(p: Params, audit: AuditVerdict, u: UsageReport, input: nat, cached: nat, write: nat)
    requires RawInput(audit.kind, u.top) == Number(Integer(input)) && RawOutput(audit.kind, u.top) == Number(Integer(0))
    requires RawTopReasoning(u) == Missing && RawDetailReasoning(u) == Missing
    requires RawCached(u) == Number(Integer(cached)) && RawCacheWrite(u) == Number(Integer(write))
    requires Doubles.Add(cached, write) <= input
    ensures SettleCounts(p, audit, u) == Ok(TokenCounts(input, cached, write, 0, 0))
  {
    NoReasoning(audit, u);
    assert SettleCacheWrite(p, u) == Ok(write);
    var sum := Doubles.Add(cached, write);
  }

  lemma NoReasoning(audit: AuditVerdict, u: UsageReport)
    requires RawTopReasoning(u) == Missing && RawDetailReasoning(u) == Missing
    ensures SettleReasoning(audit, u, 0) == Ok((0, 0))
  {
    assert Doubles.Add(0, 0) == 0;
  }

  lemma CachedDoubles(p: Params, input: nat)
    requires p.usage == Some(CachedReport(input)) && input <= Doubles.MAX_SAFE_INTEGER
    ensures DoublesOnly(p)
  {
    assert Doubles.IsDouble(0) && Doubles.IsDouble(1) && Doubles.IsDouble(input);
  }

  /** No response billed at the rate short of its threshold costs less without its cached fields. */
  ghost predicate NoReportUnderbilled(p: Params, rate: PricingRate)
    requires ValidRate(rate)
  {
    forall u: UsageReport | var q := p.(usage := Some(u));
      DoublesOnly(q) && BothBilled(q, rate) && Within(BilledCounts(BilledUsage(q), rate).input, rate.longContextThreshold) ::
      Bill(p.(usage := Some(u))).value <= Bill(WithoutCached(p.(usage := Some(u)))).value
  }

  /** The documented policy that an absent cached count never undercharges, over every response of an accepted
      endpoint that is billed at a rate short of its threshold: it holds if and only if the prices are safe. */
  lemma OmittedReportExact(p: Params, rate: PricingRate)
    requires p.audit.Ok? && (p.expectedKind.Some? ==> p.audit.value.kind == p.expectedKind.value)
    requires ValidRate(rate) && EffectiveRate(p.(usage := Some(CachedReport(FirstLoss(ShortTier(rate)))))) == Ok(rate)
    ensures var tier, reach := ShortTier(rate), rate.longContextThreshold;
            && (CostSafe(tier, reach) ==> NoReportUnderbilled(p, rate))
            && (tier.inputDen <= Doubles.MAX_SAFE_INTEGER ==> (NoReportUnderbilled(p, rate) <==> CostSafe(tier, reach)))
  {
    var tier, reach := ShortTier(rate), rate.longContextThreshold;
    if CostSafe(tier, reach) {
      forall u: UsageReport | var q := p.(usage := Some(u));
        DoublesOnly(q) && BothBilled(q, rate) && Within(BilledCounts(BilledUsage(q), rate).input, reach)
        ensures Bill(p.(usage := Some(u))).value <= Bill(WithoutCached(p.(usage := Some(u)))).value
      {
        ReportCovered(p.(usage := Some(u)), rate);
      }
    } else if tier.inputDen <= Doubles.MAX_SAFE_INTEGER {
      FirstLossAtMost(tier);
      ReportUnderbilled(p.(usage := Some(CachedReport(FirstLoss(tier)))), rate, tier, 0);
    }
  }

  lemma ReportCovered(p: Params, rate: PricingRate)
    requires p.usage.Some? && BothBilled(p, rate) && ValidRate(rate)
    requires Within(BilledCounts(BilledUsage(p), rate).input, rate.longContextThreshold)
    requires CostSafe(ShortTier(rate), rate.longContextThreshold)
    ensures Bill(p).value <= Bill(WithoutCached(p)).value
  {
    OmissionBills(p, rate);
    NotUnderbilled(BilledUsage(p), rate, rate.longContextThreshold);
  }

  /** The losses as responses: each normalises, is billed, and is billed less without its cached field. */
  lemma ReportUnderbilled(p: Params, rate: PricingRate, tier: ActiveTier, rounds: nat)
    requires p.audit.Ok? && (p.expectedKind.Some? ==> p.audit.value.kind == p.expectedKind.value)
    requires ValidRate(rate) && ValidTier(tier) && !WholePriceBetween(tier)
    requires SelectTier(rate, LossCounts(tier, rounds).input, false) == Ok(tier)
    requires TierTotal(LossCounts(tier, rounds), tier) <= MAX_SAFE_INT64
    requires p.usage == Some(CachedReport(LossCounts(tier, rounds).input)) && EffectiveRate(p) == Ok(rate)
    ensures BothBilled(p, rate)
    ensures BilledCounts(BilledUsage(p), rate).input == LossCounts(tier, rounds).input
    ensures Bill(WithoutCached(p)).value < Bill(p).value
    ensures LossCounts(tier, rounds).input <= Doubles.MAX_SAFE_INTEGER ==> DoublesOnly(p)
  {
    var n := LossCounts(tier, rounds).input;
    CachedNormalizes(p, n);
    OmissionBills(p, rate);
    LossUsagePriced(rate, tier, rounds, false);
    var usage, loss := NormalizeAndReconcile(p).value.usage, LossUsage(LossCounts(tier, rounds), false);
    SameCost(usage, loss, rate);
    SameCost(Omitting(usage), Omitting(loss), rate);
    if n <= Doubles.MAX_SAFE_INTEGER {
      CachedDoubles(p, n);
    }
  }

  lemma SameCost(usage: TokenUsage, usage': TokenUsage, rate: PricingRate)
    requires CountTokens(usage) == CountTokens(usage') && usage.longContext == usage'.longContext
    ensures CalculateCost(usage, rate) == CalculateCost(usage', rate)
  {
  }
}
