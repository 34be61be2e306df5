/** Which fields of a response are read, which tier it is settled at, and when it is refused, written out. */
module NormalizerMeaning {
  import opened Wrappers
  import opened BudgetTypes
  import opened PricingEngine
  import opened UsageNormalizer
  import opened NormalizerLaws
  import Doubles
  import Text

  // ---------- fields ----------

  /** The first field that is there. */
  function FirstPresent(fields: seq<Field>): Field {
    if fields == [] then Missing
    else if fields[0] != Missing then fields[0]
    else FirstPresent(fields[1..])
  }

  function Under(fields: Fields, name: FieldName): Field {
    if name in fields then fields[name] else Missing
  }

  /** The fields that may hold the input count, in the order they are tried. */
  function InputFields(kind: EndpointKind, top: Fields): seq<Field> {
    match kind
    case OpenAiChatCompletions => [Under(top, PromptTokens), Under(top, ReportedInputTokens)]
    case OpenAiResponses => [Under(top, InputTokens), Under(top, ReportedInputTokens)]
    case AnthropicMessages => [Under(top, InputTokens), Under(top, ReportedInputTokens)]
    case ReferenceAdapter => [Under(top, ReportedInputTokens), Under(top, PromptTokens), Under(top, InputTokens)]
    case CustomEndpoint => [Under(top, ReportedInputTokens), Under(top, PromptTokens), Under(top, InputTokens)]
  }

  function OutputFields(kind: EndpointKind, top: Fields): seq<Field> {
    match kind
    case OpenAiChatCompletions => [Under(top, CompletionTokens), Under(top, ReportedOutputTokens)]
    case OpenAiResponses => [Under(top, OutputTokens), Under(top, ReportedOutputTokens)]
    case AnthropicMessages => [Under(top, OutputTokens), Under(top, ReportedOutputTokens)]
    case ReferenceAdapter => [Under(top, ReportedOutputTokens), Under(top, CompletionTokens), Under(top, OutputTokens)]
    case CustomEndpoint => [Under(top, ReportedOutputTokens), Under(top, CompletionTokens), Under(top, OutputTokens)]
  }

  function CachedFieldsOf(u: UsageReport): seq<Field> {
    [Under(u.top, CachedTokens), Under(u.top, ReportedCachedTokens), Under(u.promptDetails, CachedTokens),
     Under(u.inputDetails, CachedTokens), Under(u.top, CacheReadInputTokens)]
  }

  function WriteFieldsOf(u: UsageReport): seq<Field> {
    [Under(u.top, CacheWriteTokens), Under(u.top, ReportedCacheWriteTokens), Under(u.promptDetails, CacheWriteTokens),
     Under(u.inputDetails, CacheWriteTokens), Under(u.top, CacheCreationInputTokens)]
  }

  /** The fields that are read, each the first one that is there. */
  datatype Reported = Reported(input: Field, output: Field, cached: Field, write: Field, topReasoning: Field, detailReasoning: Field)

  function ReportedBy(kind: EndpointKind, u: UsageReport): Reported {
    Reported(FirstPresent(InputFields(kind, u.top)), FirstPresent(OutputFields(kind, u.top)),
             FirstPresent(CachedFieldsOf(u)), FirstPresent(WriteFieldsOf(u)),
             FirstPresent([Under(u.top, ReasoningTokens), Under(u.top, ReportedReasoningTokens)]),
             FirstPresent([Under(u.completionDetails, ReasoningTokens), Under(u.outputDetails, ReasoningTokens)]))
  }

  /** A non-negative integer. */
  predicate IsCountField(field: Field) {
    field.Number? && field.number.Integer? && field.number.n >= 0
  }

  function CountIn(field: Field): nat {
    if IsCountField(field) then field.number.n else 0
  }

  predicate AbsentOrCount(field: Field) {
    field == Missing || IsCountField(field)
  }

  lemma Two(a: Field, b: Field)
    ensures FirstPresent([a, b]) == OrElse(a, b)
  {
    assert [a, b][1..] == [b];
    assert FirstPresent([b]) == b by {
      assert [b][1..] == [];
    }
  }

  lemma Three(a: Field, b: Field, c: Field)
    ensures FirstPresent([a, b, c]) == OrElse(OrElse(a, b), c)
  {
    assert [a, b, c][1..] == [b, c];
    Two(b, c);
  }

  lemma Five(a: Field, b: Field, c: Field, d: Field, e: Field)
    ensures FirstPresent([a, b, c, d, e]) == OrElse(OrElse(OrElse(OrElse(a, b), c), d), e)
  {
    assert [a, b, c, d, e][1..] == [b, c, d, e] && [b, c, d, e][1..] == [c, d, e];
    Three(c, d, e);
  }

  lemma Four(a: Field, b: Field, c: Field, d: Field)
    ensures FirstPresent([a, b, c, d]) == OrElse(OrElse(OrElse(a, b), c), d)
  {
    assert [a, b, c, d][1..] == [b, c, d];
    Three(b, c, d);
  }

  lemma InputRead(kind: EndpointKind, top: Fields)
    ensures FirstPresent(InputFields(kind, top)) == RawInput(kind, top)
    ensures FirstPresent(OutputFields(kind, top)) == RawOutput(kind, top)
  {
    Two(Under(top, PromptTokens), Under(top, ReportedInputTokens));
    Two(Under(top, InputTokens), Under(top, ReportedInputTokens));
    Three(Under(top, ReportedInputTokens), Under(top, PromptTokens), Under(top, InputTokens));
    Two(Under(top, CompletionTokens), Under(top, ReportedOutputTokens));
    Two(Under(top, OutputTokens), Under(top, ReportedOutputTokens));
    Three(Under(top, ReportedOutputTokens), Under(top, CompletionTokens), Under(top, OutputTokens));
  }

  lemma CachesRead(u: UsageReport)
    ensures FirstPresent(CachedFieldsOf(u)) == RawCached(u) && FirstPresent(WriteFieldsOf(u)) == RawCacheWrite(u)
  {
    Five(Under(u.top, CachedTokens), Under(u.top, ReportedCachedTokens), Under(u.promptDetails, CachedTokens),
         Under(u.inputDetails, CachedTokens), Under(u.top, CacheReadInputTokens));
    Five(Under(u.top, CacheWriteTokens), Under(u.top, ReportedCacheWriteTokens), Under(u.promptDetails, CacheWriteTokens),
         Under(u.inputDetails, CacheWriteTokens), Under(u.top, CacheCreationInputTokens));
  }

  lemma ReasoningRead(u: UsageReport)
    ensures FirstPresent([Under(u.top, ReasoningTokens), Under(u.top, ReportedReasoningTokens)]) == RawTopReasoning(u)
    ensures FirstPresent([Under(u.completionDetails, ReasoningTokens), Under(u.outputDetails, ReasoningTokens)]) == RawDetailReasoning(u)
  {
    Two(Under(u.top, ReasoningTokens), Under(u.top, ReportedReasoningTokens));
    Two(Under(u.completionDetails, ReasoningTokens), Under(u.outputDetails, ReasoningTokens));
  }

  // The same fields as the source finds them.
  predicate AreRead(f: Reported, kind: EndpointKind, u: UsageReport) {
    && f.input == RawInput(kind, u.top) && f.output == RawOutput(kind, u.top)
    && f.cached == RawCached(u) && f.write == RawCacheWrite(u)
    && f.topReasoning == RawTopReasoning(u) && f.detailReasoning == RawDetailReasoning(u)
  }

  lemma AllRead(kind: EndpointKind, u: UsageReport)
    ensures AreRead(ReportedBy(kind, u), kind, u)
  {
    InputRead(kind, u.top);
    CachesRead(u);
    ReasoningRead(u);
  }

  // ---------- the tier ----------

  /** The first tier field that is there decides; a provider's name for a tier is read as the name it is priced by.
      With no tier reported a requested "fast" stays "fast" and everything else is "standard". */
  predicate IsTierOf(p: Params, u: UsageReport, tier: string) {
    var field := FirstPresent([p.responseTier, Under(u.top, ServiceTier), p.rawMetadataTier, p.metadataTier]);
    if field.Words? && Text.Trim(field.words) != "" then
      var name := Text.Lower(Text.Trim(field.words));
      && (name in {"default", "scale", "standard"} ==> tier == "standard")
      && (name in {"priority", "fast"} ==> tier == "fast")
      && (name !in {"default", "scale", "standard", "priority", "fast"} ==> tier == name)
    else tier == if p.requestedTier == Words("fast") then "fast" else "standard"
  }

  lemma TierRead(p: Params, tier: string)
    requires p.usage.Some?
    ensures IsTierOf(p, p.usage.value, tier) <==> tier == EffectiveTier(p)
  {
    Four(p.responseTier, Under(p.usage.value.top, ServiceTier), p.rawMetadataTier, p.metadataTier);
  }

  /** A response is settled at the tier the provider reports, and billed at the rate of that tier. */
  lemma SettledTier(p: Params)
    requires NormalizeAndReconcile(p).Ok?
    ensures p.usage.Some?
    ensures var r := NormalizeAndReconcile(p).value;
            && IsTierOf(p, p.usage.value, r.effectiveTier) && r.usage.serviceTier == Some(r.effectiveTier)
            && (var rate := GetRate(p.rates, p.providerId, p.modelId, Some(r.effectiveTier));
                rate.Ok? && Bill(p) == CalculateCost(r.usage, rate.value))
  {
    TierRead(p, EffectiveTier(p));
  }

  // ---------- the counts ----------

  /** The five counts as they are read. Reasoning tokens are part of the output unless the endpoint reports them apart. */
  function Reading(audit: AuditVerdict, f: Reported): TokenCounts {
    var output := CountIn(f.output);
    var reasoning := if f.detailReasoning != Missing then CountIn(f.detailReasoning) else CountIn(f.topReasoning);
    TokenCounts(CountIn(f.input), CountIn(f.cached), CountIn(f.write),
                if audit.separateReasoning then Doubles.Add(output, reasoning) else output, reasoning)
  }

  /** The reported reasoning counts are counts, agree where both are given, and fit the output they are part of. */
  predicate ReasoningOk(audit: AuditVerdict, f: Reported) {
    && AbsentOrCount(f.topReasoning) && AbsentOrCount(f.detailReasoning)
    && (f.topReasoning != Missing && f.detailReasoning != Missing ==> f.topReasoning == f.detailReasoning)
    && (!audit.separateReasoning ==> Reading(audit, f).reasoning <= Reading(audit, f).output)
  }

  /** Everything reported is well formed and nothing that is billed is missing. */
  predicate IsComplete(p: Params, audit: AuditVerdict, f: Reported) {
    && IsCountField(f.input) && IsCountField(f.output) && ReasoningOk(audit, f)
    && AbsentOrCount(f.cached) && AbsentOrCount(f.write)
    && (f.write == Missing ==> p.rate.cacheWriteNum <= 0 || p.cachingDisabled)
    && Doubles.Add(Reading(audit, f).cached, Reading(audit, f).cacheWrite) <= Reading(audit, f).input
  }

  lemma SettledReasoning(audit: AuditVerdict, u: UsageReport, f: Reported, output: nat)
    requires f.topReasoning == RawTopReasoning(u) && f.detailReasoning == RawDetailReasoning(u)
    requires f.output == Number(Integer(output))
    ensures var settled := SettleReasoning(audit, u, output);
            && (settled.Ok? <==> ReasoningOk(audit, f))
            && (settled.Ok? ==> settled.value == (Reading(audit, f).reasoning, Reading(audit, f).output))
  {
  }

  lemma SettledWrite(p: Params, u: UsageReport, f: Reported)
    requires f.write == RawCacheWrite(u)
    ensures var settled := SettleCacheWrite(p, u);
            && (settled.Ok? <==> AbsentOrCount(f.write) && (f.write == Missing ==> p.rate.cacheWriteNum <= 0 || p.cachingDisabled))
            && (settled.Ok? ==> settled.value == CountIn(f.write))
  {
  }

  lemma OptionalRead(field: Field)
    ensures OptionalCount(field).Ok? <==> AbsentOrCount(field)
    ensures OptionalCount(field).Ok? ==> OptionalCount(field).value.GetOr(0) == CountIn(field)
  {
  }

  lemma SettledCounts(p: Params, audit: AuditVerdict, u: UsageReport, f: Reported)
    requires AreRead(f, audit.kind, u)
    ensures var settled := SettleCounts(p, audit, u);
            (settled.Ok? <==> IsComplete(p, audit, f)) && (settled.Ok? ==> settled.value == Reading(audit, f))
  {
    OptionalRead(f.cached);
    SettledWrite(p, u, f);
    if IsCountField(f.input) && IsCountField(f.output) {
      SettledReasoning(audit, u, f, f.output.number.n);
    }
  }

  /** A response normalises exactly when the endpoint is accepted and of the expected kind, the report is complete,
      and its tier has a rate; the usage is then what was read. */
  lemma NormalizesExactly(p: Params, tier: string)
    requires p.usage.Some? ==> IsTierOf(p, p.usage.value, tier)
    ensures NormalizeAndReconcile(p).Ok? <==>
            && p.audit.Ok? && (p.expectedKind.Some? ==> p.audit.value.kind == p.expectedKind.value)
            && p.usage.Some? && IsComplete(p, p.audit.value, ReportedBy(p.audit.value.kind, p.usage.value))
            && GetRate(p.rates, p.providerId, p.modelId, Some(tier)).Ok?
    ensures NormalizeAndReconcile(p).Ok? ==>
              var c, usage := Reading(p.audit.value, ReportedBy(p.audit.value.kind, p.usage.value)), NormalizeAndReconcile(p).value.usage;
              && usage.inputTokens == Integer(c.input) && usage.outputTokens == Integer(c.output)
              && usage.cachedTokens == Some(Integer(c.cached)) && usage.cacheWriteTokens == Some(Integer(c.cacheWrite))
              && usage.reasoningTokens == Some(Integer(c.reasoning)) && !usage.longContext
  {
    if p.audit.Ok? && p.usage.Some? {
      TierRead(p, tier);
      AllRead(p.audit.value.kind, p.usage.value);
      SettledCounts(p, p.audit.value, p.usage.value, ReportedBy(p.audit.value.kind, p.usage.value));
    }
  }

  /** The first reason for which counts are refused. */
  function CountsReason(p: Params, audit: AuditVerdict, f: Reported): BudgetError {
    if f.input == Missing || (IsCountField(f.input) && f.output == Missing) then UsageIncomplete
    else if !IsCountField(f.input) || !IsCountField(f.output) then UsageMalformed
    else if !AbsentOrCount(f.topReasoning) || !AbsentOrCount(f.detailReasoning) then UsageMalformed
    else if !ReasoningOk(audit, f) then UsageInconsistent
    else if !AbsentOrCount(f.cached) || !AbsentOrCount(f.write) then UsageMalformed
    else if f.write == Missing && p.rate.cacheWriteNum > 0 && !p.cachingDisabled then UsageIncomplete
    else UsageInconsistent
  }

  lemma ReasoningRefusedFor(audit: AuditVerdict, u: UsageReport, f: Reported, output: nat)
    requires f.topReasoning == RawTopReasoning(u) && f.detailReasoning == RawDetailReasoning(u)
    requires f.output == Number(Integer(output))
    ensures SettleReasoning(audit, u, output).Err? ==>
              SettleReasoning(audit, u, output).error
              == if !AbsentOrCount(f.topReasoning) || !AbsentOrCount(f.detailReasoning) then UsageMalformed else UsageInconsistent
  {
  }

  lemma CountsRefusedFor(p: Params, audit: AuditVerdict, u: UsageReport, f: Reported)
    requires AreRead(f, audit.kind, u) && SettleCounts(p, audit, u).Err?
    ensures SettleCounts(p, audit, u).error == CountsReason(p, audit, f)
  {
    OptionalRead(f.cached);
    SettledWrite(p, u, f);
    if IsCountField(f.input) && IsCountField(f.output) {
      SettledReasoning(audit, u, f, f.output.number.n);
      ReasoningRefusedFor(audit, u, f, f.output.number.n);
    }
  }

  /** Why a response does not normalise. */
  lemma NormalizationRefusedFor(p: Params, e: BudgetError)
    requires NormalizeAndReconcile(p) == Err(e)
    ensures if p.audit.Err? then e == p.audit.error
            else if p.expectedKind.Some? && p.audit.value.kind != p.expectedKind.value then e == UnsupportedBillingMode
            else if p.usage.None? then e == UsageMissing
            else
              var f := ReportedBy(p.audit.value.kind, p.usage.value);
              e == if IsComplete(p, p.audit.value, f) then PricingNotFound else CountsReason(p, p.audit.value, f)
  {
    if p.audit.Ok? && p.usage.Some? {
      var f := ReportedBy(p.audit.value.kind, p.usage.value);
      AllRead(p.audit.value.kind, p.usage.value);
      SettledCounts(p, p.audit.value, p.usage.value, f);
      if SettleCounts(p, p.audit.value, p.usage.value).Err? {
        CountsRefusedFor(p, p.audit.value, p.usage.value, f);
      }
    }
  }
}
