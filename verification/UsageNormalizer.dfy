/** Turns a provider's reported usage into the token usage that is settled, or refuses it. */
module UsageNormalizer {
  import opened Wrappers
  import opened BudgetTypes
  import opened PricingEngine
  import Doubles
  import Text

  datatype EndpointKind = OpenAiChatCompletions | OpenAiResponses | AnthropicMessages | ReferenceAdapter | CustomEndpoint

  /** The verdict of the endpoint audit on the effective endpoint. */
  datatype AuditVerdict = AuditVerdict(kind: EndpointKind, separateReasoning: bool)

  /** A field of a JSON object; null and undefined are both `Missing`. */
  datatype Field = Missing | Number(number: JsNumber) | Words(words: string) | OtherValue

  datatype FieldName =
    | PromptTokens | InputTokens | ReportedInputTokens
    | CompletionTokens | OutputTokens | ReportedOutputTokens
    | ReasoningTokens | ReportedReasoningTokens
    | CachedTokens | ReportedCachedTokens | CacheReadInputTokens
    | CacheWriteTokens | ReportedCacheWriteTokens | CacheCreationInputTokens
    | ServiceTier

  type Fields = map<FieldName, Field>

  datatype UsageReport = UsageReport(
    top: Fields,
    promptDetails: Fields, inputDetails: Fields,
    completionDetails: Fields, outputDetails: Fields)

  datatype Params = Params(
    audit: Result<AuditVerdict, BudgetError>,
    expectedKind: Option<EndpointKind>,
    usage: Option<UsageReport>,
    responseTier: Field, rawMetadataTier: Field, metadataTier: Field,
    requestedTier: Field,
    cachingDisabled: bool,
    rate: PricingRate,
    rates: RateTable, providerId: string, modelId: string)

  datatype Normalized = Normalized(usage: TokenUsage, effectiveTier: string)

  function Get(fields: Fields, name: FieldName): Field {
    if name in fields then fields[name] else Missing
  }

  /** The `??` operator. */
  function OrElse(first: Field, second: Field): Field {
    if first.Missing? then second else first
  }

  function RawInput(kind: EndpointKind, top: Fields): Field {
    match kind
    case OpenAiResponses => OrElse(Get(top, InputTokens), Get(top, ReportedInputTokens))
    case OpenAiChatCompletions => OrElse(Get(top, PromptTokens), Get(top, ReportedInputTokens))
    case AnthropicMessages => OrElse(Get(top, InputTokens), Get(top, ReportedInputTokens))
    case _ => OrElse(OrElse(Get(top, ReportedInputTokens), Get(top, PromptTokens)), Get(top, InputTokens))
  }

  function RawOutput(kind: EndpointKind, top: Fields): Field {
    match kind
    case OpenAiResponses => OrElse(Get(top, OutputTokens), Get(top, ReportedOutputTokens))
    case OpenAiChatCompletions => OrElse(Get(top, CompletionTokens), Get(top, ReportedOutputTokens))
    case AnthropicMessages => OrElse(Get(top, OutputTokens), Get(top, ReportedOutputTokens))
    case _ => OrElse(OrElse(Get(top, ReportedOutputTokens), Get(top, CompletionTokens)), Get(top, OutputTokens))
  }

  function RawTopReasoning(u: UsageReport): Field {
    OrElse(Get(u.top, ReasoningTokens), Get(u.top, ReportedReasoningTokens))
  }

  function RawDetailReasoning(u: UsageReport): Field {
    OrElse(Get(u.completionDetails, ReasoningTokens), Get(u.outputDetails, ReasoningTokens))
  }

  function RawCached(u: UsageReport): Field {
    OrElse(OrElse(OrElse(OrElse(Get(u.top, CachedTokens), Get(u.top, ReportedCachedTokens)),
                         Get(u.promptDetails, CachedTokens)), Get(u.inputDetails, CachedTokens)),
           Get(u.top, CacheReadInputTokens))
  }

  function RawCacheWrite(u: UsageReport): Field {
    OrElse(OrElse(OrElse(OrElse(Get(u.top, CacheWriteTokens), Get(u.top, ReportedCacheWriteTokens)),
                         Get(u.promptDetails, CacheWriteTokens)), Get(u.inputDetails, CacheWriteTokens)),
           Get(u.top, CacheCreationInputTokens))
  }

  function RequiredCount(field: Field): Result<nat, BudgetError> {
    match field
    case Missing => Err(UsageIncomplete)
    case Number(number) => if number.IsCount() then Ok(number.n) else Err(UsageMalformed)
    case _ => Err(UsageMalformed)
  }

  function OptionalCount(field: Field): Result<Option<nat>, BudgetError> {
    match field
    case Missing => Ok(None)
    case Number(number) => if number.IsCount() then Ok(Some(number.n)) else Err(UsageMalformed)
    case _ => Err(UsageMalformed)
  }

  /** The tier the provider reports, under the name it is priced by; None when it reports none. */
  function ReportedTier(p: Params): Option<string> {
    var usageTier := if p.usage.Some? then Get(p.usage.value.top, ServiceTier) else Missing;
    var raw := OrElse(OrElse(OrElse(p.responseTier, usageTier), p.rawMetadataTier), p.metadataTier);
    if !raw.Words? || Text.Trim(raw.words) == "" then None
    else
      var lower := Text.Lower(Text.Trim(raw.words));
      if lower in ["default", "scale", "standard"] then Some("standard")
      else if lower in ["priority", "fast"] then Some("fast")
      else Some(lower)
  }

  function EffectiveTier(p: Params): string {
    match ReportedTier(p)
    case Some(tier) => tier
    case None => if p.requestedTier == Words("fast") then "fast" else "standard"
  }

  /** Reasoning tokens and the output count they belong to. */
  function SettleReasoning(audit: AuditVerdict, u: UsageReport, output: nat): Result<(nat, nat), BudgetError> {
    var top :- OptionalCount(RawTopReasoning(u));
    var detail :- OptionalCount(RawDetailReasoning(u));
    if top.Some? && detail.Some? && top != detail then Err(UsageInconsistent)
    else
      var reasoning := if detail.Some? then detail.value else top.GetOr(0);
      if audit.separateReasoning then Ok((reasoning, Doubles.Add(output, reasoning)))
      else if reasoning > output then Err(UsageInconsistent)
      else Ok((reasoning, output))
  }

  /** Cache-write tokens; an omission is refused when the model bills them and caching was not turned off. */
  function SettleCacheWrite(p: Params, u: UsageReport): Result<nat, BudgetError> {
    var written :- OptionalCount(RawCacheWrite(u));
    if written.None? && p.rate.cacheWriteNum > 0 && !p.cachingDisabled then Err(UsageIncomplete)
    else Ok(written.GetOr(0))
  }

  /** The five counts, in the order the source validates them. */
  function SettleCounts(p: Params, audit: AuditVerdict, u: UsageReport): Result<TokenCounts, BudgetError> {
    var input :- RequiredCount(RawInput(audit.kind, u.top));
    var rawOutput :- RequiredCount(RawOutput(audit.kind, u.top));
    var (reasoning, output) :- SettleReasoning(audit, u, rawOutput);
    var cached :- OptionalCount(RawCached(u));
    var write :- SettleCacheWrite(p, u);
    if Doubles.Add(cached.GetOr(0), write) > input then Err(UsageInconsistent)
    else Ok(TokenCounts(input, cached.GetOr(0), write, output, reasoning))
  }

  function ToUsage(c: TokenCounts, tier: string): TokenUsage {
    TokenUsage(Integer(c.input), Integer(c.output), Some(Integer(c.cached)), Some(Integer(c.cacheWrite)),
               Some(Integer(c.reasoning)), Some(tier), false)
  }

  function NormalizeAndReconcile(p: Params): Result<Normalized, BudgetError> {
    var audit :- p.audit;
    if p.expectedKind.Some? && audit.kind != p.expectedKind.value then Err(UnsupportedBillingMode)
    else if p.usage.None? then Err(UsageMissing)
    else
      var counts :- SettleCounts(p, audit, p.usage.value);
      var tier := EffectiveTier(p);
      if GetRate(p.rates, p.providerId, p.modelId, Some(tier)).Err? then Err(PricingNotFound)
      else Ok(Normalized(ToUsage(counts, tier), tier))
  }
}
