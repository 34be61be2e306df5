/** The classifier's verdict on any text: brackets, a zone, letter case and spaces do not change it. */
module IpVerdicts {
  import opened Wrappers
  import opened Strings
  import opened IpText
  import opened IpAddress
  import opened IpParsing
  import opened IpRanges
  import opened Ipv4Table
  import opened IpLaws
  import Text

  // ---------- spaces ----------

  predicate Blank(s: string) {
    forall i | 0 <= i < |s| :: Text.IsSpace(s[i])
  }

  lemma {:induction false} TrimStartShape(s: string)
    ensures var r := Text.TrimStart(s); (r == "" <==> Blank(s)) && (r != "" ==> !Text.IsSpace(r[0]))
  {
    if s != "" && Text.IsSpace(s[0]) {
      TrimStartShape(s[1..]);
      assert forall i | 1 <= i < |s| :: s[i] == s[1..][i - 1];
    }
  }

  lemma {:induction false} TrimEndShape(s: string)
    ensures var r := Text.TrimEnd(s);
            && |r| <= |s| && r == s[..|r|] && (r == "" <==> Blank(s)) && (r != "" ==> !Text.IsSpace(r[|r| - 1]))
  {
    if s != "" && Text.IsSpace(s[|s| - 1]) {
      TrimEndShape(s[..|s| - 1]);
      assert forall i | 0 <= i < |s| - 1 :: s[i] == s[..|s| - 1][i];
    }
  }

  lemma TrimShape(s: string)
    ensures var r := Text.Trim(s);
            && (r == "" <==> Blank(s)) && (r != "" ==> !Text.IsSpace(r[0]) && !Text.IsSpace(r[|r| - 1]))
  {
    TrimStartShape(s);
    TrimEndShape(Text.TrimStart(s));
  }

  lemma TrimAgain(s: string)
    ensures Text.Trim(Text.Trim(s)) == Text.Trim(s)
  {
    TrimShape(s);
    var r := Text.Trim(s);
    assert Text.TrimStart(r) == r && Text.TrimEnd(r) == r;
  }

  // ---------- the verdict depends on the bare text alone ----------

  /** What is left of the text once brackets, zone and outer spaces are gone. */
  function Core(t: string): string {
    Text.Trim(Bare(t))
  }

  lemma {:induction false} FirstPiece(s: string, c: char)
    ensures var r := Split(s, c)[0]; r <= s && c !in r && (r == s || s[|r|] == c)
  {
    if s != "" && s[0] != c {
      FirstPiece(s[1..], c);
      assert s == [s[0]] + s[1..];
    }
  }

  /** One opening bracket in front and one closing bracket at the end are dropped, each with or without the other, and
      then everything from the first percent sign on. */
  lemma BareMeaning(t: string)
    ensures var from := if t != "" && t[0] == '[' then 1 else 0;
            var to := if |t| > from && t[|t| - 1] == ']' then |t| - 1 else |t|;
            var inner, bare := t[from..to], Bare(t);
            bare <= inner && '%' !in bare && (bare == inner || inner[|bare|] == '%')
  {
    var inner := if t != "" && t[0] == '[' then t[1..] else t;
    OneCharacter(t, '[');
    OneCharacter(inner, ']');
    FirstPiece(StripBrackets(t), '%');
  }

  /** What is read is the core in lower case. */
  lemma ReadsTheCore(t: string)
    ensures ParseWords(t) == ParseClean(Text.Lower(Core(t)))
  {
    LowerTrim(Bare(t));
  }

  /** A group is one to four hexadecimal digits of either case, and its value fits a word. */
  lemma GroupExactly(g: string)
    ensures IsGroup(g) <==> 1 <= |g| <= 4 && forall i | 0 <= i < |g| :: g[i] in "0123456789abcdefABCDEF"
    ensures IsGroup(g) ==> Hexadecimal(g) < 0x1_0000
  {
    forall i | 0 <= i < |g| ensures IsHexDigit(g[i]) <==> g[i] in "0123456789abcdefABCDEF" {
      HexDigits(g[i]);
    }
    if IsGroup(g) {
      GroupIsWord(g);
    }
  }

  lemma HexDigits(c: char)
    ensures IsHexDigit(c) <==> c in "0123456789abcdefABCDEF"
    ensures IsHexDigit(c) ==> "0123456789abcdef"[DigitValue(c)] == Text.LowerChar(c)
  {
  }

  predicate Judged(clean: string) {
    match Ipv4Number(clean)
    case Some(n) => ForbiddenIpv4(n)
    case None =>
      match ParseWords(clean)
      case None => true
      case Some(ws) => ForbiddenValue(Value(ws))
  }

  lemma BlankIsRefused(t: string)
    requires Blank(t)
    ensures Core(t) == "" && Judged("")
  {
    assert Unwrapped(t) by {
      assert !Text.IsSpace('%') && !Text.IsSpace('[') && !Text.IsSpace(']');
    }
    BarePlain(t);
    TrimShape(t);
    BarePlain("");
    TrimShape("");
    assert Split("", '.') == [""];
  }

  /** The test for a blank text is subsumed: the verdict is that on the core of the text. */
  lemma VerdictOnCore(t: string)
    ensures Forbidden(t) == Judged(Core(t))
  {
    TrimShape(t);
    if Blank(t) {
      BlankIsRefused(t);
    }
  }

  /** Brackets and a zone never change the verdict. */
  lemma DecorationsKeepVerdict(t: string, zone: string)
    requires Unwrapped(t)
    ensures Forbidden("[" + t + "]") == Forbidden(t)
    ensures Forbidden(t + "%" + zone) == Forbidden(t)
    ensures Forbidden("[" + (t + "%" + zone) + "]") == Forbidden(t)
  {
    BarePlain(t);
    BareWrapped(t);
    StripZone(t, zone);
    BareWrappedZone(t, zone);
    SameCore(t, "[" + t + "]");
    SameCore(t, t + "%" + zone);
    SameCore(t, "[" + (t + "%" + zone) + "]");
  }

  lemma SameCore(t: string, t': string)
    requires Bare(t') == Bare(t)
    ensures Forbidden(t') == Forbidden(t)
  {
    VerdictOnCore(t);
    VerdictOnCore(t');
  }

  // ---------- letter case ----------

  lemma LowerSpace(c: char)
    ensures Text.IsSpace(Text.LowerChar(c)) == Text.IsSpace(c)
  {
  }

  lemma {:induction false} LowerTrimStart(s: string)
    ensures Text.TrimStart(Text.Lower(s)) == Text.Lower(Text.TrimStart(s))
  {
    if s != "" {
      LowerSpace(s[0]);
      assert Text.Lower(s)[1..] == Text.Lower(s[1..]);
      LowerTrimStart(s[1..]);
    }
  }

  lemma {:induction false} LowerTrimEnd(s: string)
    ensures Text.TrimEnd(Text.Lower(s)) == Text.Lower(Text.TrimEnd(s))
  {
    if s != "" {
      LowerSpace(s[|s| - 1]);
      assert Text.Lower(s)[..|s| - 1] == Text.Lower(s[..|s| - 1]);
      LowerTrimEnd(s[..|s| - 1]);
    }
  }

  lemma LowerTrim(s: string)
    ensures Text.Trim(Text.Lower(s)) == Text.Lower(Text.Trim(s))
  {
    LowerTrimStart(s);
    LowerTrimEnd(Text.TrimStart(s));
  }

  lemma NumberOfTrim(s: string)
    ensures Ipv4Number(Text.Trim(s)) == Ipv4Number(s)
  {
    TrimAgain(s);
  }

  // A dotted quad has no letters.
  lemma QuadIsLower(s: string, l: string)
    requires l == Text.Lower(s) && (IsQuadText(s) || IsQuadText(l))
    ensures l == s
  {
    if IsQuadText(s) {
      QuadChars(s);
    } else {
      QuadChars(l);
    }
    assert forall i | 0 <= i < |s| :: l[i] == s[i];
  }

  lemma LowerNumber(s: string)
    ensures Ipv4Number(Text.Lower(s)) == Ipv4Number(s)
  {
    var c := Text.Trim(s);
    var l := Text.Lower(c);
    LowerTrim(s);
    NumberOfTrim(s);
    NumberOfTrim(Text.Lower(s));
    TrimAgain(s);
    TrimAgain(Text.Lower(s));
    if IsQuadText(c) || IsQuadText(l) {
      QuadIsLower(c, l);
    }
  }

  lemma LowerBare(t: string)
    ensures Bare(Text.Lower(t)) == Text.Lower(Bare(t))
  {
    LowerStrip(t);
    LowerSplit(StripBrackets(t));
  }

  /** Letter case never changes the verdict. */
  lemma CaseKeepsVerdict(t: string)
    ensures Forbidden(Text.Lower(t)) == Forbidden(t)
  {
    VerdictOnCore(t);
    VerdictOnCore(Text.Lower(t));
    LowerBare(t);
    LowerTrim(Bare(t));
    LowerNumber(Core(t));
    CaseIgnored(Core(t));
  }

  // ---------- texts that parse ----------

  lemma QuadHasNoWords(d: string)
    requires IsQuadText(d)
    ensures ParseWords(d) == None
  {
    QuadChars(d);
    PlainText(d);
    NoColonNoWords(d);
  }

  lemma NoColonNoWords(s: string)
    requires ':' !in s
    ensures ParseClean(s) == None
  {
    OneColonless(s);
    SplitAlone(s, ':');
    assert LastIndexOf(s, ':') == -1;
    ShortHasNoWords(s, [s]);
  }

  lemma ShortHasNoWords(s: string, groups: seq<string>)
    requires EmbedQuad(s) == Some(s) && |groups| != 8 && (Groups(s).Some? ==> Groups(s) == Some(groups))
    ensures ParseClean(s) == None
  {
  }

  lemma OneColonless(s: string)
    requires ':' !in s
    ensures !Includes(s, "::")
  {
    forall i ensures !At(s, "::", i) {
      if 0 <= i && i + 2 <= |s| {
        assert s[i..i + 2][0] == s[i];
      }
    }
  }

  lemma ParsedAreWords(s: string, ws: Words)
    requires ParseClean(s) == Some(ws)
    ensures IsWords(ws)
  {
    var groups := Groups(EmbedQuad(s).value).value;
    forall i | 0 <= i < 8 ensures ws[i] < 0x1_0000 {
      assert groups[i] in groups;
      GroupIsWord(groups[i]);
    }
  }

  /** Every text whose core parses to words, however decorated, is judged by its words alone. */
  lemma VerdictOfAnyText(t: string, ws: Words)
    requires ParseWords(Core(t)) == Some(ws)
    ensures IsWords(ws) && Forbidden(t) == ForbiddenValue(Value(ws))
  {
    VerdictOnCore(t);
    TrimAgain(Bare(t));
    if Ipv4Number(Core(t)).Some? {
      QuadHasNoWords(Core(t));
    }
    ParsedAreWords(Clean(Core(t)), ws);
  }

  /** Every text of a 6to4 address, whatever follows its first 48 bits, gets the verdict of its IPv4 address. */
  lemma SixToFourVerdictAgrees(t: string, ws: Words, v: nat)
    requires ParseWords(Core(t)) == Some(ws) && v < 0x1_0000_0000
    requires ws[0] == 0x2002 && ws[1] == v / 0x1_0000 && ws[2] == v % 0x1_0000
    ensures Forbidden(t) == ForbiddenIpv4(v)
  {
    VerdictOfAnyText(t, ws);
    SixToFourShape(ws, v);
    EmbeddedVerdict(ws, v);
  }

  /** A dotted quad is forbidden exactly when its octets are special. */
  lemma DottedVerdict(a: nat, b: nat, c: nat, d: nat)
    requires a <= 255 && b <= 255 && c <= 255 && d <= 255
    ensures Forbidden(Dotted(a, b, c, d)) <==> IsSpecialQuad(a, b, c)
  {
    DottedIsQuad(Dotted(a, b, c, d), a, b, c, d);
    QuadVerdict(Dotted(a, b, c, d));
    Ipv4TableMeaning(a, b, c, d);
  }

  lemma DottedIsQuad(t: string, a: nat, b: nat, c: nat, d: nat)
    requires a <= 255 && b <= 255 && c <= 255 && d <= 255 && t == Dotted(a, b, c, d)
    ensures IsQuadText(t) && Ipv4Number(t) == Some(Quad(a, b, c, d))
  {
    DottedParses(t, a, b, c, d);
    OctetParses(a);
    OctetParses(d);
    assert t[0] == OctetText(a)[0] && t[|t| - 1] == OctetText(d)[|OctetText(d)| - 1];
    assert !Text.IsSpace(t[0]) && !Text.IsSpace(t[|t| - 1]);
    assert Text.TrimStart(t) == t && Text.TrimEnd(t) == t;
  }
}
