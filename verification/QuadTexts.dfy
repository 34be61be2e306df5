/** Which texts are IPv4 addresses, and that every other text of digits and dots is refused. */
module QuadTexts {
  import opened Wrappers
  import opened Strings
  import opened IpText
  import opened IpAddress
  import opened IpParsing
  import opened IpRanges
  import opened Ipv4Table
  import opened IpLaws
  import opened IpVerdicts
  import Text

  /** Four octets joined by dots, each without leading zeros. */
  ghost predicate IsCanonicalQuad(s: string) {
    exists a, b, c, d :: IsOctets(a, b, c, d) && s == Dotted(a, b, c, d)
  }

  predicate IsOctets(a: nat, b: nat, c: nat, d: nat) {
    a <= 255 && b <= 255 && c <= 255 && d <= 255
  }

  /** A canonical quad of no special address. */
  ghost predicate IsHarmlessQuad(s: string) {
    exists a, b, c, d :: IsOctets(a, b, c, d) && s == Dotted(a, b, c, d) && !IsSpecialQuad(a, b, c)
  }

  // ---------- an octet has one text ----------

  lemma DigitBack(c: char)
    requires IsDigit(c)
    ensures DigitValue(c) < 10 && Digit(DigitValue(c)) == c
  {
  }

  lemma {:induction false} LongIsLarge(s: string)
    requires AllDigits(s) && |s| >= 4 && s[0] != '0'
    ensures Decimal(s) >= 1000
  {
    var init := s[..|s| - 1];
    if |s| == 4 {
      ThreeAtLeast(init);
    } else {
      LongIsLarge(init);
    }
  }

  lemma ThreeAtLeast(s: string)
    requires AllDigits(s) && |s| == 3 && s[0] != '0'
    ensures Decimal(s) >= 100
  {
    ThreeDigitText(s);
  }

  lemma ThreeDigitText(s: string)
    requires AllDigits(s) && |s| == 3
    ensures Decimal(s) == 100 * DigitValue(s[0]) + 10 * DigitValue(s[1]) + DigitValue(s[2])
  {
    DigitBack(s[0]);
    DigitBack(s[1]);
    DigitBack(s[2]);
    assert s == [Digit(DigitValue(s[0])), Digit(DigitValue(s[1])), Digit(DigitValue(s[2]))];
    ThreeDigits(DigitValue(s[0]), DigitValue(s[1]), DigitValue(s[2]));
  }

  lemma TwoDigitText(s: string)
    requires AllDigits(s) && |s| == 2
    ensures Decimal(s) == 10 * DigitValue(s[0]) + DigitValue(s[1])
  {
    DigitBack(s[0]);
    DigitBack(s[1]);
    assert s == [Digit(DigitValue(s[0])), Digit(DigitValue(s[1]))];
    TwoDigits(DigitValue(s[0]), DigitValue(s[1]));
  }

  lemma TwoDigitOctet(m: nat, l: nat, s: string)
    requires 1 <= m < 10 && l < 10 && s == [Digit(m), Digit(l)]
    ensures OctetText(10 * m + l) == s
  {
    assert (10 * m + l) / 10 == m && (10 * m + l) % 10 == l;
  }

  lemma ThreeDigitOctet(k: nat, m: nat, l: nat, s: string)
    requires 1 <= k < 10 && m < 10 && l < 10 && 100 * k + 10 * m + l <= 255 && s == [Digit(k), Digit(m), Digit(l)]
    ensures OctetText(100 * k + 10 * m + l) == s
  {
    var n := 100 * k + 10 * m + l;
    assert n / 100 == k && n / 10 % 10 == m && n % 10 == l;
  }

  /** An octet has no other text than its decimal one without leading zeros. */
  lemma OctetIsText(s: string)
    requires IsOctet(s)
    ensures s == OctetText(Decimal(s))
  {
    DigitBack(s[0]);
    if |s| == 1 {
      assert s == [Digit(DigitValue(s[0]))];
      OneDigit(DigitValue(s[0]));
    } else if |s| == 2 {
      TwoDigitText(s);
      DigitBack(s[1]);
      TwoDigitOctet(DigitValue(s[0]), DigitValue(s[1]), s);
    } else if |s| == 3 {
      ThreeDigitText(s);
      DigitBack(s[1]);
      DigitBack(s[2]);
      ThreeDigitOctet(DigitValue(s[0]), DigitValue(s[1]), DigitValue(s[2]), s);
    } else {
      LongIsLarge(s);
    }
  }

  // ---------- a text gets a number exactly when it is a canonical quad ----------

  lemma QuadSplits(s: string, parts: seq<string>)
    requires Split(s, '.') == parts && |parts| == 4
    requires IsOctet(parts[0]) && IsOctet(parts[1]) && IsOctet(parts[2]) && IsOctet(parts[3])
    ensures IsOctets(Decimal(parts[0]), Decimal(parts[1]), Decimal(parts[2]), Decimal(parts[3]))
    ensures s == Dotted(Decimal(parts[0]), Decimal(parts[1]), Decimal(parts[2]), Decimal(parts[3]))
  {
    var t := parts[0] + "." + parts[1] + "." + parts[2] + "." + parts[3];
    JoinSplit(s, '.');
    assert parts == [parts[0], parts[1], parts[2], parts[3]];
    FourJoined(t, parts[0], parts[1], parts[2], parts[3]);
    OctetIsText(parts[0]);
    OctetIsText(parts[1]);
    OctetIsText(parts[2]);
    OctetIsText(parts[3]);
  }

  /** A text has a number exactly when it is a canonical quad, outer spaces aside. */
  lemma NumberExactlyWhen(t: string)
    ensures Ipv4Number(t).Some? <==> IsCanonicalQuad(Text.Trim(t))
  {
    var s := Text.Trim(t);
    if Ipv4Number(t).Some? {
      QuadSplits(s, Split(s, '.'));
    }
    if IsCanonicalQuad(s) {
      var a, b, c, d :| IsOctets(a, b, c, d) && s == Dotted(a, b, c, d);
      NumberOfTrim(t);
      DottedParses(s, a, b, c, d);
    }
  }

  /** ... and then it is the number of its four octets. */
  lemma NumberOfDotted(t: string, a: nat, b: nat, c: nat, d: nat)
    requires IsOctets(a, b, c, d) && Text.Trim(t) == Dotted(a, b, c, d)
    ensures Ipv4Number(t) == Some(Quad(a, b, c, d)) && Quad(a, b, c, d) == ((a * 256 + b) * 256 + c) * 256 + d
  {
    NumberOfTrim(t);
    DottedParses(Text.Trim(t), a, b, c, d);
  }

  // ---------- verdicts ----------

  predicate DigitsAndDots(t: string) {
    t != "" && forall i | 0 <= i < |t| :: '0' <= t[i] <= '9' || t[i] == '.'
  }

  lemma PlainQuad(t: string)
    requires DigitsAndDots(t)
    ensures Core(t) == t && Text.Trim(t) == t && Clean(t) == t && ':' !in t && Unwrapped(t)
  {
    NothingToTrim(t);
    PlainText(t);
  }

  /** A text of digits and dots is let through exactly when it is a canonical quad of no special address:
      leading zeros, missing, extra, empty or too large parts are all refused. */
  lemma DigitsAndDotsVerdict(t: string)
    requires DigitsAndDots(t)
    ensures !Forbidden(t) <==> IsHarmlessQuad(t)
  {
    PlainQuad(t);
    NumberExactlyWhen(t);
    VerdictOnCore(t);
    if IsCanonicalQuad(t) {
      CanonicalVerdict(t);
    } else {
      NoColonNoWords(t);
    }
  }

  // ---------- quads at the end of an IPv6 text ----------

  lemma BadTail(p: string, d: string)
    requires p != "" && p[|p| - 1] == ':' && ':' !in d && '.' in d && Ipv4Number(d).None?
    ensures ParseClean(p + d) == None
  {
    LastColonTail(p, d);
    NoTailNoWords(p + d);
  }

  lemma NoTailNoWords(s: string)
    requires EmbedQuad(s) == None
    ensures ParseClean(s) == None
  {
  }

  /** The text before the last colon, and the number read after it. */
  ghost predicate IsDottedForm(s: string) {
    exists p, d, a, b, c, e :: IsOctets(a, b, c, e) && EndsInQuad(s, p, d, a, b, c, e)
  }

  ghost predicate EndsInQuad(s: string, p: string, d: string, a: nat, b: nat, c: nat, e: nat)
    requires IsOctets(a, b, c, e)
  {
    && s == p + d && p != "" && p[|p| - 1] == ':' && Text.Trim(d) == Dotted(a, b, c, e)
    && var grouped := p + TwoGroups(Quad(a, b, c, e));
    IsFullForm(grouped) || IsElidedForm(grouped)
  }

  lemma FormHasNoDot(s: string)
    requires IsFullForm(s) || IsElidedForm(s)
    ensures '.' !in s
  {
    if IsFullForm(s) {
      var groups :| IsGroups(groups) && |groups| == 8 && s == Join(groups, ':');
      JoinIsTidy(groups);
    } else {
      var left, right :| IsGroups(left) && IsGroups(right) && |left| + |right| <= 7
                         && s == Join(left, ':') + "::" + Join(right, ':');
      JoinIsTidy(left);
      JoinIsTidy(right);
    }
  }

  lemma TrimKeepsCharacters(d: string, c: char)
    requires !Text.IsSpace(c)
    ensures c in Text.Trim(d) <==> c in d
  {
    TrimStartKeeps(d, c);
    TrimEndKeeps(Text.TrimStart(d), c);
  }

  lemma {:induction false} TrimStartKeeps(d: string, c: char)
    requires !Text.IsSpace(c)
    ensures c in Text.TrimStart(d) <==> c in d
  {
    if d != "" && Text.IsSpace(d[0]) {
      TrimStartKeeps(d[1..], c);
      assert d == [d[0]] + d[1..];
    }
  }

  lemma {:induction false} TrimEndKeeps(d: string, c: char)
    requires !Text.IsSpace(c)
    ensures c in Text.TrimEnd(d) <==> c in d
  {
    if d != "" && Text.IsSpace(d[|d| - 1]) {
      TrimEndKeeps(d[..|d| - 1], c);
      assert d == d[..|d| - 1] + [d[|d| - 1]];
    }
  }

  lemma DottedIsTail(d: string, a: nat, b: nat, c: nat, e: nat)
    requires IsOctets(a, b, c, e) && Text.Trim(d) == Dotted(a, b, c, e)
    ensures IsTail(d) && Ipv4Number(d) == Some(Quad(a, b, c, e))
  {
    NumberOfDotted(d, a, b, c, e);
    DottedIsQuad(Text.Trim(d), a, b, c, e);
    QuadChars(Text.Trim(d));
    TrimKeepsCharacters(d, ':');
    TrimKeepsCharacters(d, '.');
  }

  lemma SplitAtLastColon(s: string) returns (p: string, d: string)
    requires ':' in s
    ensures s == p + d && p != "" && p[|p| - 1] == ':' && ':' !in d
  {
    var k := LastIndexOf(s, ':');
    p, d := s[..k + 1], s[k + 1..];
  }

  lemma ParsedDotsAreTail(s: string)
    requires '.' in s && ParseClean(s).Some?
    ensures IsDottedForm(s)
  {
    if ':' !in s {
      NoColonNoWords(s);
    }
    var p, d := SplitAtLastColon(s);
    if '.' !in d {
      DotBeforeTail(p, d);
    }
    if Ipv4Number(d).None? {
      BadTail(p, d);
    }
    TailIsForm(s, p, d);
  }

  lemma DotBeforeTail(p: string, d: string)
    requires p != "" && p[|p| - 1] == ':' && ':' !in d && '.' in p + d && '.' !in d
    ensures ParseClean(p + d) == None
  {
    var q := p[..|p| - 1];
    LastColonBefore(q, d);
    assert q + ":" + d == p + d;
    OneCharacter(d, '.');
    UnchangedWithDot(p + d);
  }

  lemma UnchangedWithDot(s: string)
    requires EmbedQuad(s) == Some(s) && '.' in s
    ensures ParseClean(s) == None
  {
    if ParseClean(s).Some? {
      GroupsAreForm(s);
      FormHasNoDot(s);
    }
  }

  lemma UnchangedIsForm(s: string)
    requires EmbedQuad(s) == Some(s) && ParseClean(s).Some?
    ensures IsFullForm(s) || IsElidedForm(s)
  {
    GroupsAreForm(s);
  }

  lemma GroupedIsForm(p: string, d: string, v: nat, grouped: string)
    requires p != "" && p[|p| - 1] == ':' && IsTail(d) && Ipv4Number(d) == Some(v) && grouped == p + TwoGroups(v)
    requires ParseClean(p + d).Some?
    ensures IsFullForm(grouped) || IsElidedForm(grouped)
  {
    TailIsTwoGroups(p, d);
    HexTail(p, v);
    UnchangedIsForm(grouped);
  }

  lemma TailIsForm(s: string, p: string, d: string)
    requires s == p + d && p != "" && p[|p| - 1] == ':' && IsTail(d) && ParseClean(s).Some?
    ensures IsDottedForm(s)
  {
    NumberExactlyWhen(d);
    var a, b, c, e :| IsOctets(a, b, c, e) && Text.Trim(d) == Dotted(a, b, c, e);
    NumberOfDotted(d, a, b, c, e);
    GroupedIsForm(p, d, Quad(a, b, c, e), p + TwoGroups(Quad(a, b, c, e)));
    assert EndsInQuad(s, p, d, a, b, c, e);
  }

  /** With a dot the parser accepts exactly the forms whose last two groups are written as a canonical quad. */
  lemma AcceptsExactlyTheDottedForms(s: string)
    requires '.' in s
    ensures ParseClean(s).Some? <==> IsDottedForm(s)
  {
    if ParseClean(s).Some? {
      ParsedDotsAreTail(s);
    }
    if IsDottedForm(s) {
      var p, d, a, b, c, e :| IsOctets(a, b, c, e) && EndsInQuad(s, p, d, a, b, c, e);
      DottedIsTail(d, a, b, c, e);
      TailIsTwoGroups(p, d);
      var grouped := p + TwoGroups(Quad(a, b, c, e));
      FormHasNoDot(grouped);
      AcceptsExactlyTheForms(grouped);
    }
  }

  /** An IPv6 text whose tail after the last colon has a dot but is no canonical quad is refused. */
  lemma BadTailRefused(t: string, p: string, d: string)
    requires Core(t) == p + d && Unwrapped(p) && p != "" && p[|p| - 1] == ':'
    requires DigitsAndDots(d) && '.' in d && !IsCanonicalQuad(d)
    ensures Forbidden(t)
  {
    TrimAgain(Bare(t));
    CleanOfTail(p + d, p, d);
    PlainQuad(d);
    NumberExactlyWhen(d);
    BadTail(Text.Lower(p), d);
    NothingReadIsRefused(t, p + d);
  }

  lemma NothingReadIsRefused(t: string, s: string)
    requires Core(t) == s && Text.Trim(s) == s && ':' in s && ParseClean(Clean(s)) == None
    ensures Forbidden(t)
  {
    VerdictOnCore(t);
    ColonIsNoQuad(s);
  }

  lemma CleanOfTail(s: string, p: string, d: string)
    requires s == p + d && Unwrapped(p) && DigitsAndDots(d) && Text.Trim(s) == s
    ensures Clean(s) == Text.Lower(p) + d
  {
    BarePlain(s);
    LowerTrim(s);
    assert Text.Lower(s) == Text.Lower(p) + d;
  }

  // ---------- the whole verdict ----------

  /** The IPv4 address with this number is special. */
  predicate IsSpecialNumber(v: nat) {
    IsSpecialQuad(v / 0x100_0000, v / 0x1_0000 % 0x100, v / 0x100 % 0x100)
  }

  lemma SpecialNumber(v: nat)
    requires v < 0x1_0000_0000
    ensures ForbiddenIpv4(v) == IsSpecialNumber(v)
  {
    OctetsOf(v);
    Ipv4TableMeaning(v / 0x100_0000, v / 0x1_0000 % 0x100, v / 0x100 % 0x100, v % 0x100);
  }

  lemma OctetsOf(v: nat)
    requires v < 0x1_0000_0000
    ensures v / 0x100_0000 <= 255
    ensures v == Quad(v / 0x100_0000, v / 0x1_0000 % 0x100, v / 0x100 % 0x100, v % 0x100)
  {
    var w := v / 0x100;
    assert v == 0x100 * w + v % 0x100;
    HighOctets(w);
    assert w / 0x100 == v / 0x1_0000 && w / 0x1_0000 == v / 0x100_0000;
  }

  lemma HighOctets(w: nat)
    ensures w == 0x1_0000 * (w / 0x1_0000) + 0x100 * (w / 0x100 % 0x100) + w % 0x100
  {
    var x := w / 0x100;
    assert w == 0x100 * x + w % 0x100;
    assert x == 0x100 * (x / 0x100) + x % 0x100;
    assert x / 0x100 == w / 0x1_0000;
  }

  /** An IPv6 address is harmless: no special address, and no special IPv4 address in it. */
  predicate IsHarmless(ws: Words)
    requires IsWords(ws)
  {
    !IsSpecial(ws) && (WordsEmbed(ws).Some? ==> !IsSpecialNumber(WordsEmbed(ws).value))
  }

  lemma HarmlessVerdict(ws: Words)
    requires IsWords(ws)
    ensures ForbiddenValue(Value(ws)) <==> !IsHarmless(ws)
  {
    VerdictOnWords(ws);
    if WordsEmbed(ws).Some? {
      SpecialNumber(WordsEmbed(ws).value);
    }
  }

  lemma ParsedIsNoQuad(s: string)
    requires ParseWords(s).Some? && Text.Trim(s) == s
    ensures !IsCanonicalQuad(s)
  {
    NumberExactlyWhen(s);
    if IsCanonicalQuad(s) {
      QuadHasNoWords(s);
    }
  }

  lemma ParsedVerdict(t: string, ws: Words)
    requires ParseWords(Core(t)) == Some(ws)
    ensures IsWords(ws) && (Forbidden(t) <==> !IsHarmless(ws)) && !IsCanonicalQuad(Core(t))
  {
    VerdictOfAnyText(t, ws);
    HarmlessVerdict(ws);
    TrimAgain(Bare(t));
    ParsedIsNoQuad(Core(t));
  }

  lemma UnparsedVerdict(t: string)
    requires ParseWords(Core(t)) == None
    ensures !Forbidden(t) <==> IsHarmlessQuad(Core(t))
  {
    VerdictOnCore(t);
    TrimAgain(Bare(t));
    NumberExactlyWhen(Core(t));
    if IsCanonicalQuad(Core(t)) {
      CanonicalVerdict(Core(t));
    }
  }

  /** The classifier lets exactly two kinds of text through: canonical quads of no special address, and texts that
      parse to eight harmless words. Everything else is refused. */
  lemma AllowedExactlyWhen(t: string)
    ensures !Forbidden(t) <==>
            || IsHarmlessQuad(Core(t))
            || (ParseWords(Core(t)).Some? && IsWords(ParseWords(Core(t)).value) && IsHarmless(ParseWords(Core(t)).value))
  {
    if ParseWords(Core(t)).Some? {
      ParsedVerdict(t, ParseWords(Core(t)).value);
    } else {
      UnparsedVerdict(t);
    }
  }

  lemma CanonicalVerdict(s: string)
    requires IsCanonicalQuad(s)
    ensures Judged(s) <==> !IsHarmlessQuad(s)
  {
    forall a, b, c, d | IsOctets(a, b, c, d) && s == Dotted(a, b, c, d)
      ensures Judged(s) == IsSpecialQuad(a, b, c)
    {
      DottedIsQuad(s, a, b, c, d);
      Ipv4TableMeaning(a, b, c, d);
    }
  }
}
