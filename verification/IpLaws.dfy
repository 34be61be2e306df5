/** The classifier's verdict on IPv6 addresses in words, and the agreement of all forms of one IPv4 address. */
module IpLaws {
  import opened Wrappers
  import opened Bits
  import opened IpText
  import opened IpAddress
  import opened IpParsing
  import opened IpRanges
  import opened Ipv4Table
  import Text

  // ---------- the IPv6 table ----------

  /** The special-purpose IPv6 addresses, word by word. */
  predicate IsSpecial(ws: Words)
    requires |ws| == 8
  {
    || (ws[0] == 0 && ws[1] == 0 && ws[2] == 0 && ws[3] == 0 && ws[4] == 0 && ws[5] == 0 && ws[6] == 0 && ws[7] <= 1)
    || (ws[0] == 0x100 && ws[1] == 0 && ws[2] == 0 && ws[3] == 0)
    || (ws[0] == 0x2001 && ((ws[1] == 2 && ws[2] == 0) || ws[1] == 0xdb8 || 0x20 <= ws[1] <= 0x2f))
    || (ws[0] == 0x64 && ws[1] == 0xff9b && ws[2] == 1)
    || 0xfc00 <= ws[0] <= 0xfdff
    || 0xfe80 <= ws[0]
  }

  function Hits(ws: Words): seq<bool>
    requires |ws| == 8
  {
    [ws[0] == 0 && ws[1] == 0 && ws[2] == 0 && ws[3] == 0 && ws[4] == 0 && ws[5] == 0 && ws[6] == 0 && ws[7] == 0,
     ws[0] == 0 && ws[1] == 0 && ws[2] == 0 && ws[3] == 0 && ws[4] == 0 && ws[5] == 0 && ws[6] == 0 && ws[7] == 1,
     ws[0] == 0x100 && ws[1] == 0 && ws[2] == 0 && ws[3] == 0,
     ws[0] == 0x2001 && ws[1] == 2 && ws[2] == 0,
     ws[0] == 0x2001 && ws[1] == 0xdb8,
     ws[0] == 0x2001 && 0x20 <= ws[1] <= 0x2f,
     ws[0] == 0x64 && ws[1] == 0xff9b && ws[2] == 1,
     0xfc00 <= ws[0] <= 0xfdff,
     0xfe80 <= ws[0] <= 0xfebf,
     0xfec0 <= ws[0] <= 0xfeff,
     0xff00 <= ws[0]]
  }

  lemma HitIsSpecial(ws: Words)
    requires IsWords(ws)
    ensures true in Hits(ws) <==> IsSpecial(ws)
  {
    var hits := Hits(ws);
    assert true in hits <==> hits[0] || hits[1] || hits[2] || hits[3] || hits[4] || hits[5] || hits[6]
                             || hits[7] || hits[8] || hits[9] || hits[10];
  }

  lemma WholeHit(ws: Words, i: nat, p: Pattern)
    requires IsWords(ws) && i < 11 && p == IPV6_PATTERNS[i] && p.bits == 0
    ensures IsPattern(p) && Matches(ws, p) == Hits(ws)[i]
  {
    WholeWords(ws, p);
  }

  lemma PartHit(ws: Words, i: nat, p: Pattern)
    requires IsWords(ws) && i < 11 && p == IPV6_PATTERNS[i] && p.bits > 0
    ensures IsPattern(p) && Matches(ws, p) == Hits(ws)[i]
  {
    SmallPowers();
    PartOfWord(ws, p);
  }

  /** The table of IPv6 prefixes, read through parser and shift test, forbids exactly the special addresses. */
  lemma Ipv6TableMeaning(ws: Words)
    requires IsWords(ws)
    ensures ForbiddenIpv6(Value(ws)) <==> IsSpecial(ws)
  {
    TableHits(Value(ws), ws, FORBIDDEN_IPV6_RANGES);
    HitIsSpecial(ws);
  }

  lemma TableHits(n: nat, ws: Words, ranges: seq<Cidr>)
    requires IsWords(ws) && n == Value(ws) && ranges == FORBIDDEN_IPV6_RANGES
    ensures RangesHit(n, ranges) == Hits(ws)
  {
    forall i | 0 <= i < 11 ensures InIpv6Range(n, ranges[i]) == Hits(ws)[i] {
      EntryHits(n, ws, i, ranges[i]);
    }
  }

  lemma EntryHits(n: nat, ws: Words, i: nat, range: Cidr)
    requires IsWords(ws) && n == Value(ws) && i < 11 && range == FORBIDDEN_IPV6_RANGES[i]
    ensures InIpv6Range(n, range) == Hits(ws)[i]
  {
    var p := IPV6_PATTERNS[i];
    EntryStands(i, range, p);
    if p.bits == 0 {
      WholeHit(ws, i, p);
    } else {
      PartHit(ws, i, p);
    }
    PatternRange(n, ws, range, p);
  }

  // ---------- embedded IPv4 addresses ----------

  function Pair(hi: nat, lo: nat): nat {
    0x1_0000 * hi + lo
  }

  /** The embedded IPv4 address, read on words. */
  function WordsEmbed(ws: Words): Option<nat>
    requires |ws| == 8
  {
    if ws[0] == 0 && ws[1] == 0 && ws[2] == 0 && ws[3] == 0 && ws[4] == 0 && (ws[5] == 0 || ws[5] == 0xffff)
    then Some(Pair(ws[6], ws[7]))
    else if ws[0] == 0x64 && ws[1] == 0xff9b && ws[2] == 0 && ws[3] == 0 && ws[4] == 0 && ws[5] == 0
    then Some(Pair(ws[6], ws[7]))
    else if ws[0] == 0x2002 then Some(Pair(ws[1], ws[2]))
    else None
  }

  lemma SecondAndThird(ws: Words)
    requires IsWords(ws)
    ensures ShiftRight(Value(ws), 80) % 0x1_0000_0000 == Pair(ws[1], ws[2])
  {
    var top := ws[..3];
    DropWords(ws, 5);
    assert top[1] == ws[1] && top[2] == ws[2];
    LastTwoWords(top);
  }

  /** Which of the four kinds of carrier the words are. */
  function Carries(ws: Words): seq<bool>
    requires |ws| == 8
  {
    [ws[0] == 0 && ws[1] == 0 && ws[2] == 0 && ws[3] == 0 && ws[4] == 0 && ws[5] == 0,
     ws[0] == 0 && ws[1] == 0 && ws[2] == 0 && ws[3] == 0 && ws[4] == 0 && ws[5] == 0xffff,
     ws[0] == 0x64 && ws[1] == 0xff9b && ws[2] == 0 && ws[3] == 0 && ws[4] == 0 && ws[5] == 0,
     ws[0] == 0x2002]
  }

  lemma CarrierHit(ws: Words, i: nat, p: Pattern)
    requires IsWords(ws) && i < 4 && p == CARRIER_PATTERNS[i]
    ensures IsPattern(p) && Matches(ws, p) == Carries(ws)[i]
  {
    WholeWords(ws, p);
  }

  lemma CarrierRangeHit(n: nat, ws: Words, i: nat, range: Cidr)
    requires IsWords(ws) && n == Value(ws) && i < 4 && range == CARRIER_RANGES[i]
    ensures InIpv6Range(n, range) == Carries(ws)[i]
  {
    CarrierStands(i, range, CARRIER_PATTERNS[i]);
    CarrierHit(ws, i, CARRIER_PATTERNS[i]);
    PatternRange(n, ws, range, CARRIER_PATTERNS[i]);
  }

  lemma EmbedFromHits(ws: Words, n: nat, compatible: bool, mapped: bool, translated: bool, sixToFour: bool)
    requires IsWords(ws) && n == Value(ws)
    requires compatible == Carries(ws)[0] && mapped == Carries(ws)[1]
    requires translated == Carries(ws)[2] && sixToFour == Carries(ws)[3]
    ensures Embed(n, compatible, mapped, translated, sixToFour) == WordsEmbed(ws)
  {
    LastTwoWords(ws);
    SecondAndThird(ws);
  }

  lemma EmbeddedBy(n: nat, ws: Words, r0: Cidr, r1: Cidr, r2: Cidr, r3: Cidr)
    requires IsWords(ws) && n == Value(ws)
    requires InIpv6Range(n, r0) == Carries(ws)[0] && InIpv6Range(n, r1) == Carries(ws)[1]
    requires InIpv6Range(n, r2) == Carries(ws)[2] && InIpv6Range(n, r3) == Carries(ws)[3]
    ensures Embed(n, InIpv6Range(n, r0), InIpv6Range(n, r1), InIpv6Range(n, r2), InIpv6Range(n, r3)) == WordsEmbed(ws)
  {
    EmbedFromHits(ws, n, InIpv6Range(n, r0), InIpv6Range(n, r1), InIpv6Range(n, r2), InIpv6Range(n, r3));
  }

  lemma CompatibleHit(n: nat, ws: Words)
    requires IsWords(ws) && n == Value(ws)
    ensures InIpv6Range(n, COMPATIBLE) == Carries(ws)[0]
  {
    CarrierRangeHit(n, ws, 0, COMPATIBLE);
  }

  lemma MappedHit(n: nat, ws: Words)
    requires IsWords(ws) && n == Value(ws)
    ensures InIpv6Range(n, MAPPED) == Carries(ws)[1]
  {
    CarrierRangeHit(n, ws, 1, MAPPED);
  }

  lemma TranslatedHit(n: nat, ws: Words)
    requires IsWords(ws) && n == Value(ws)
    ensures InIpv6Range(n, TRANSLATED) == Carries(ws)[2]
  {
    CarrierRangeHit(n, ws, 2, TRANSLATED);
  }

  lemma SixToFourHit(n: nat, ws: Words)
    requires IsWords(ws) && n == Value(ws)
    ensures InIpv6Range(n, SIX_TO_FOUR) == Carries(ws)[3]
  {
    CarrierRangeHit(n, ws, 3, SIX_TO_FOUR);
  }

  lemma EmbeddedOnWords(ws: Words, n: nat)
    requires IsWords(ws) && n == Value(ws)
    ensures EmbeddedIpv4(n) == WordsEmbed(ws)
  {
    CompatibleHit(n, ws);
    MappedHit(n, ws);
    TranslatedHit(n, ws);
    SixToFourHit(n, ws);
    EmbeddedBy(n, ws, COMPATIBLE, MAPPED, TRANSLATED, SIX_TO_FOUR);
  }

  /** The verdict on an IPv6 address, read on its words: forbidden when special, otherwise as the IPv4 address in it. */
  lemma VerdictOnWords(ws: Words)
    requires IsWords(ws)
    ensures ForbiddenValue(Value(ws))
            <==> IsSpecial(ws) || (WordsEmbed(ws).Some? && ForbiddenIpv4(WordsEmbed(ws).value))
  {
    Ipv6TableMeaning(ws);
    EmbeddedOnWords(ws, Value(ws));
  }

  // ---------- texts ----------

  lemma ColonIsNoQuad(t: string)
    requires ':' in t && Text.Trim(t) == t
    ensures Ipv4Number(t).None?
  {
    if Ipv4Number(t).Some? {
      QuadChars(t);
    }
  }

  /** An IPv6 text is judged by its words alone. */
  lemma TextVerdict(t: string, ws: Words)
    requires IsAddressText(t) && ':' in t && ParseClean(t) == Some(ws)
    ensures Forbidden(t) == ForbiddenValue(Value(ws))
  {
    PlainText(t);
    ColonIsNoQuad(t);
  }

  lemma QuadVerdict(d: string)
    requires IsQuadText(d)
    ensures Forbidden(d) == ForbiddenIpv4(Ipv4Number(d).value) && IsAddressText(d)
  {
    QuadChars(d);
    PlainText(d);
  }

  /** The words of an IPv4-compatible, mapped or translated address. */
  function Carrier(first: nat, second: nat, sixth: nat, v: nat): Words {
    [first, second, 0, 0, 0, sixth, v / 0x1_0000, v % 0x1_0000]
  }

  lemma CompatibleText(p: string, d: string)
    requires IsQuadText(d) && p == "::"
    ensures ParseClean(p + d) == Some(Carrier(0, 0, 0, Ipv4Number(d).value))
  {
    ZeroTail(6);
    ElidedQuadParses([], [], p, d, Carrier(0, 0, 0, Ipv4Number(d).value));
  }

  lemma MappedText(p: string, d: string)
    requires IsQuadText(d) && p == "::ffff:"
    ensures ParseClean(p + d) == Some(Carrier(0, 0, 0xffff, Ipv4Number(d).value))
  {
    var g := "ffff";
    HexOf(g);
    ZeroTail(5);
    ElidedQuadParses([], [g], p, d, Carrier(0, 0, 0xffff, Ipv4Number(d).value));
  }

  lemma TranslatedText(p: string, d: string)
    requires IsQuadText(d) && p == "64:ff9b::"
    ensures ParseClean(p + d) == Some(Carrier(0x64, 0xff9b, 0, Ipv4Number(d).value))
  {
    var g, h := "64", "ff9b";
    HexOf(g);
    HexOf(h);
    ThreeJoined(g, h, h);
    ZeroTail(4);
    ElidedQuadParses([g, h], [], p, d, Carrier(0x64, 0xff9b, 0, Ipv4Number(d).value));
  }

  // ---------- one verdict for all forms ----------

  lemma EmbeddedVerdict(ws: Words, v: nat)
    requires IsWords(ws) && WordsEmbed(ws) == Some(v) && (IsSpecial(ws) ==> ForbiddenIpv4(v))
    ensures ForbiddenValue(Value(ws)) == ForbiddenIpv4(v)
  {
    VerdictOnWords(ws);
  }

  predicate IsCarrier(first: nat, second: nat, sixth: nat) {
    (first == 0 && second == 0 && (sixth == 0 || sixth == 0xffff)) || (first == 0x64 && second == 0xff9b && sixth == 0)
  }

  lemma CarrierShape(first: nat, second: nat, sixth: nat, v: nat)
    requires v < 0x1_0000_0000 && IsCarrier(first, second, sixth)
    ensures var ws := Carrier(first, second, sixth, v);
            IsWords(ws) && WordsEmbed(ws) == Some(v) && (IsSpecial(ws) ==> v <= 1)
  {
  }

  lemma CarrierVerdict(first: nat, second: nat, sixth: nat, v: nat)
    requires v < 0x1_0000_0000 && IsCarrier(first, second, sixth)
    ensures ForbiddenValue(Value(Carrier(first, second, sixth, v))) == ForbiddenIpv4(v)
  {
    CarrierShape(first, second, sixth, v);
    if v <= 1 {
      ThisNetworkForbidden(v);
    }
    EmbeddedVerdict(Carrier(first, second, sixth, v), v);
  }

  lemma SixToFourShape(ws: Words, v: nat)
    requires IsWords(ws) && v < 0x1_0000_0000
    requires ws[0] == 0x2002 && ws[1] == v / 0x1_0000 && ws[2] == v % 0x1_0000
    ensures WordsEmbed(ws) == Some(v) && !IsSpecial(ws)
  {
  }

  lemma QuadFormVerdict(t: string, v: nat, first: nat, second: nat, sixth: nat)
    requires IsAddressText(t) && ':' in t && IsCarrier(first, second, sixth) && v < 0x1_0000_0000
    requires ParseClean(t) == Some(Carrier(first, second, sixth, v))
    ensures Forbidden(t) == ForbiddenIpv4(v)
  {
    TextVerdict(t, Carrier(first, second, sixth, v));
    CarrierVerdict(first, second, sixth, v);
  }

  lemma PrefixedQuad(p: string, d: string)
    requires IsQuadText(d) && IsAddressText(p) && ':' in p
    ensures IsAddressText(p + d) && ':' in p + d
  {
    QuadChars(d);
  }

  lemma CompatibleVerdict(t: string, p: string, d: string)
    requires IsQuadText(d) && p == "::" && t == p + d
    ensures Forbidden(t) == ForbiddenIpv4(Ipv4Number(d).value)
  {
    PrefixedQuad(p, d);
    CompatibleText(p, d);
    QuadFormVerdict(t, Ipv4Number(d).value, 0, 0, 0);
  }

  lemma MappedVerdict(t: string, p: string, d: string)
    requires IsQuadText(d) && p == "::ffff:" && t == p + d
    ensures Forbidden(t) == ForbiddenIpv4(Ipv4Number(d).value)
  {
    PrefixedQuad(p, d);
    MappedText(p, d);
    QuadFormVerdict(t, Ipv4Number(d).value, 0, 0, 0xffff);
  }

  lemma TranslatedVerdict(t: string, p: string, d: string)
    requires IsQuadText(d) && p == "64:ff9b::" && t == p + d
    ensures Forbidden(t) == ForbiddenIpv4(Ipv4Number(d).value)
  {
    PrefixedQuad(p, d);
    TranslatedText(p, d);
    QuadFormVerdict(t, Ipv4Number(d).value, 0x64, 0xff9b, 0);
  }

  /** Whatever its text, an IPv4 address gets one verdict: dotted, IPv4-compatible, IPv4-mapped or translated. */
  lemma SameVerdictInEveryForm(d: string)
    requires IsQuadText(d)
    ensures Forbidden(d) == ForbiddenIpv4(Ipv4Number(d).value)
    ensures Forbidden("::" + d) == Forbidden(d)
    ensures Forbidden("::ffff:" + d) == Forbidden(d)
    ensures Forbidden("64:ff9b::" + d) == Forbidden(d)
  {
    QuadVerdict(d);
    CompatibleVerdict("::" + d, "::", d);
    MappedVerdict("::ffff:" + d, "::ffff:", d);
    TranslatedVerdict("64:ff9b::" + d, "64:ff9b::", d);
  }
}
