/** When a registration is seen by a lookup: rates are stored under text keys joined with "::". */
module PricingLookup {
  import opened Wrappers
  import opened BudgetTypes
  import opened PricingEngine
  import opened Text

  predicate ColonFree(s: string) {
    ':' !in s
  }

  /** The tier a registration is filed under. */
  function FiledTier(input: PricingRateInput): string {
    var tier := Lower(input.serviceTier.GetOr("standard"));
    if tier == "" then "standard" else tier
  }

  predicate Names(input: PricingRateInput, providerId: string, modelId: string, serviceTier: Option<string>) {
    && Lower(providerId) == Lower(input.providerId)
    && Lower(modelId) == Lower(input.modelId)
    && TierName(serviceTier) == FiledTier(input)
  }

  lemma LowerAgain(s: string)
    ensures Lower(Lower(s)) == Lower(s)
    ensures ColonFree(s) ==> ColonFree(Lower(s))
  {
    forall i | 0 <= i < |s|
      ensures Lower(Lower(s))[i] == Lower(s)[i]
      ensures s[i] != ':' ==> Lower(s)[i] != ':'
    {
    }
  }

  lemma StandardIsLower()
    ensures Lower("standard") == "standard"
  {
    forall i | 0 <= i < |"standard"| ensures Lower("standard")[i] == "standard"[i] {
    }
  }

  // The first separator of a joined key ends its first, colon-free part.
  lemma SplitAtSeparator(a: string, x: string, b: string, y: string)
    requires ColonFree(a) && ColonFree(b) && a + "::" + x == b + "::" + y
    ensures a == b && x == y
  {
    var s := a + "::" + x;
    assert s[|a|] == ':' && s[|b|] == ':';
    assert forall i | 0 <= i < |a| :: s[i] == a[i];
    assert forall i | 0 <= i < |b| :: s[i] == b[i];
    assert |a| == |b|;
    assert a == s[..|a|] && b == s[..|b|];
    assert x == s[|a| + 2..] && y == s[|b| + 2..];
  }

  // The last separator of a joined key starts its last, colon-free part.
  lemma SplitAtLastSeparator(x: string, a: string, y: string, b: string)
    requires ColonFree(a) && ColonFree(b) && x + "::" + a == y + "::" + b
    ensures x == y && a == b
  {
    var s := x + "::" + a;
    assert s[|x| + 1] == ':' && s[|y| + 1] == ':';
    assert forall i | 0 <= i < |a| :: s[|x| + 2 + i] == a[i];
    assert forall i | 0 <= i < |b| :: s[|y| + 2 + i] == b[i];
    assert |x| == |y|;
    assert x == s[..|x|] && y == s[..|y|];
    assert a == s[|x| + 2..] && b == s[|y| + 2..];
  }

  lemma JoinedThrice(p: string, m: string, t: string)
    ensures p + "::" + m + "::" + t == p + "::" + (m + "::" + t)
  {
  }

  // When the keys of two (provider, model, tier) triples, or a full key and a short one, are the same text.
  lemma KeysMeet(p: string, m: string, t: string, p': string, m': string, t': string)
    requires ColonFree(p) && ColonFree(p') && ColonFree(t) && ColonFree(t')
    ensures p + "::" + m + "::" + t == p' + "::" + m' + "::" + t' <==> p == p' && m == m' && t == t'
    ensures p + "::" + m + "::" + t == p' + "::" + m' <==> p == p' && m' == m + "::" + t
    ensures p + "::" + m == p' + "::" + m' <==> p == p' && m == m'
  {
    JoinedThrice(p, m, t);
    JoinedThrice(p', m', t');
    if p + "::" + m + "::" + t == p' + "::" + m' + "::" + t' {
      SplitAtSeparator(p, m + "::" + t, p', m' + "::" + t');
      SplitAtLastSeparator(m, t, m', t');
    }
    if p + "::" + m + "::" + t == p' + "::" + m' {
      SplitAtSeparator(p, m + "::" + t, p', m');
    }
    if p + "::" + m == p' + "::" + m' {
      SplitAtSeparator(p, m, p', m');
    }
  }

  lemma LongerJoin(m: string, t: string)
    ensures m != m + "::" + t
  {
    assert |m| < |m + "::" + t|;
  }

  /** A lookup after a registration, whatever was registered before: the new rate when it is named, and
      otherwise the answer it got before. */
  ghost predicate SeenExactly(input: PricingRateInput, providerId: string, modelId: string, serviceTier: Option<string>) {
    forall rates: RateTable ::
      GetRate(Registered(rates, input), providerId, modelId, serviceTier)
      == if Names(input, providerId, modelId, serviceTier) then Ok(RateFrom(input))
         else GetRate(rates, providerId, modelId, serviceTier)
  }

  /** One model's name is the other's name and tier joined, and the longer name goes by its short key. */
  predicate Clashes(input: PricingRateInput, providerId: string, modelId: string, serviceTier: Option<string>) {
    && Lower(providerId) == Lower(input.providerId)
    && (|| (RateFrom(input).serviceTier == "standard"
            && Lower(input.modelId) == Lower(modelId) + "::" + TierName(serviceTier))
        || (TierName(serviceTier) == "standard"
            && Lower(modelId) == Lower(input.modelId) + "::" + FiledTier(input)))
  }

  lemma LookupKeys(input: PricingRateInput, providerId: string, modelId: string, serviceTier: Option<string>)
    requires ColonFree(input.providerId) && ColonFree(input.serviceTier.GetOr(""))
    requires ColonFree(providerId) && ColonFree(serviceTier.GetOr(""))
    ensures var p, m, t := Lower(providerId), Lower(modelId), TierName(serviceTier);
            var p', m', t' := Lower(input.providerId), Lower(input.modelId), FiledTier(input);
            && ColonFree(p) && ColonFree(t) && ColonFree(p') && ColonFree(t')
            && MakeKey(providerId, modelId, t) == p + "::" + m + "::" + t
            && MakeKey(input.providerId, input.modelId, RateFrom(input).serviceTier) == p' + "::" + m' + "::" + t'
            && AliasKey(providerId, modelId) == p + "::" + m
            && AliasKey(input.providerId, input.modelId) == p' + "::" + m'
            && (RateFrom(input).serviceTier == "standard" ==> t' == "standard")
  {
    LowerAgain(providerId);
    LowerAgain(input.providerId);
    LowerAgain(input.serviceTier.GetOr("standard"));
    if serviceTier.Some? {
      LowerAgain(serviceTier.value);
    }
    StandardIsLower();
  }

  /** "Exact match only", made exact for providers and tiers without a colon and any model names: a registration
      is seen by the lookups that name its provider, model and tier (letter case aside) and by no other if and
      only if the two do not clash. No model falls back on another model's price in any other way. */
  lemma RegistrationIsExact(input: PricingRateInput, providerId: string, modelId: string, serviceTier: Option<string>)
    requires ColonFree(input.providerId) && ColonFree(input.serviceTier.GetOr(""))
    requires ColonFree(providerId) && ColonFree(serviceTier.GetOr(""))
    ensures SeenExactly(input, providerId, modelId, serviceTier) <==> !Clashes(input, providerId, modelId, serviceTier)
  {
    var p, m, t := Lower(providerId), Lower(modelId), TierName(serviceTier);
    var p', m', t' := Lower(input.providerId), Lower(input.modelId), FiledTier(input);
    LookupKeys(input, providerId, modelId, serviceTier);
    KeysMeet(p, m, t, p', m', t');
    KeysMeet(p', m', t', p, m, t);
    LongerJoin(m, t);
    LongerJoin(m', t');
    if Clashes(input, providerId, modelId, serviceTier) {
      assert GetRate(Registered(map[], input), providerId, modelId, serviceTier) == Ok(RateFrom(input));
    }
  }

  /** Such a clash: the short alias of model "m::fast" is the full key of
      tier "fast" of model "m", which then finds a price although none was registered for it. */
  lemma ColonInModelNameCollides(input: PricingRateInput)
    requires input.providerId == "p" && input.modelId == "m::fast" && input.serviceTier.None?
    ensures GetRate(map[], "p", "m", Some("fast")) == Err(PricingNotFound)
    ensures GetRate(Registered(map[], input), "p", "m", Some("fast")) == Ok(RateFrom(input))
  {
    StandardIsLower();
    LowerOfLower("p");
    LowerOfLower("m");
    LowerOfLower("fast");
    LowerOfLower("m::fast");
    assert AliasKey("p", "m::fast") == "p::m::fast";
    assert MakeKey("p", "m", "fast") == "p::m::fast";
  }

  lemma LowerOfLower(s: string)
    requires forall i | 0 <= i < |s| :: !('A' <= s[i] <= 'Z')
    ensures Lower(s) == s
  {
  }
}
