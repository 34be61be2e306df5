/** What the IPv6 parser accepts and what it makes of it, for every choice of groups: the full form, any `::`
    elision, a dotted quad in the last two groups, brackets, zones and upper case. */
module IpParsing {
  import opened Wrappers
  import opened Bits
  import opened Strings
  import opened IpText
  import Text

  predicate IsGroups(groups: seq<string>) {
    forall g | g in groups :: IsGroup(g)
  }

  // ---------- colons ----------

  lemma DoubleAt(s: string, i: int)
    ensures At(s, "::", i) <==> 0 <= i && i + 2 <= |s| && s[i] == ':' && s[i + 1] == ':'
  {
    if 0 <= i && i + 2 <= |s| {
      assert s[i..i + 2] == [s[i], s[i + 1]];
    }
  }

  lemma TripleAt(s: string, i: int)
    ensures At(s, ":::", i) <==> 0 <= i && i + 3 <= |s| && s[i] == ':' && s[i + 1] == ':' && s[i + 2] == ':'
  {
    if 0 <= i && i + 3 <= |s| {
      assert s[i..i + 3] == [s[i], s[i + 1], s[i + 2]];
    }
  }

  /** No two neighbouring colons and none at either end. */
  predicate Tidy(s: string) {
    && (s != "" ==> s[0] != ':' && s[|s| - 1] != ':')
    && forall i | 0 <= i < |s| - 1 :: s[i] != ':' || s[i + 1] != ':'
  }

  lemma TidyHasNoDouble(s: string)
    requires Tidy(s)
    ensures !Includes(s, "::")
  {
    DoubleAt(s, IndexOf(s, "::"));
  }

  lemma GroupChars(g: string)
    requires IsGroup(g)
    ensures g != "" && forall i | 0 <= i < |g| :: g[i] != ':' && g[i] != '.' && g[i] != '%'
  {
  }

  lemma {:induction false} JoinIsTidy(groups: seq<string>)
    requires IsGroups(groups)
    ensures Tidy(Join(groups, ':')) && '.' !in Join(groups, ':') && (groups != [] ==> Join(groups, ':') != "")
  {
    if |groups| == 1 {
      GroupChars(groups[0]);
    } else if |groups| > 1 {
      GroupChars(groups[0]);
      JoinIsTidy(groups[1..]);
      var g, rest := groups[0], Join(groups[1..], ':');
      TidyCons(g, rest);
    }
  }

  lemma TidyCons(g: string, rest: string)
    requires IsGroup(g) && Tidy(rest) && rest != "" && '.' !in rest
    ensures Tidy(g + [':'] + rest) && '.' !in g + [':'] + rest
  {
    var s := g + [':'] + rest;
    GroupChars(g);
    forall i | 0 <= i < |s| - 1 ensures s[i] != ':' || s[i + 1] != ':' {
      if i >= |g| {
        assert s[i + 1] == rest[i - |g|];
        if i > |g| {
          assert s[i] == rest[i - |g| - 1];
        }
      }
    }
  }

  lemma GroupsSplit(groups: seq<string>)
    requires IsGroups(groups) && groups != []
    ensures Split(Join(groups, ':'), ':') == groups && "" !in groups
  {
    forall g | g in groups ensures ':' !in g && g != "" {
      GroupChars(g);
    }
    SplitJoin(groups, ':');
  }

  lemma NoDotsNoQuad(s: string)
    requires '.' !in s
    ensures EmbedQuad(s) == Some(s)
  {
    var k := LastIndexOf(s, ':');
    if k != -1 {
      OneCharacter(s[k + 1..], '.');
    }
  }

  // ---------- the full form ----------

  lemma TidyColonsOk(s: string)
    requires Tidy(s) && s != ""
    ensures ColonsOk(s)
  {
    TripleAt(s, IndexOf(s, ":::"));
    assert s[|s| - 1..] == [s[|s| - 1]];
  }

  /** Eight groups joined by colons parse to their values. */
  lemma FullFormParses(groups: seq<string>)
    requires IsGroups(groups) && |groups| == 8
    ensures ParseClean(Join(groups, ':')) == Some(GroupValues(groups))
  {
    var s := Join(groups, ':');
    JoinIsTidy(groups);
    TidyColonsOk(s);
    TidyHasNoDouble(s);
    NoDotsNoQuad(s);
    GroupsSplit(groups);
  }

  // ---------- elision ----------

  lemma ElidedChars(l: string, r: string)
    ensures var s := l + "::" + r;
            && |s| == |l| + 2 + |r| && s[|l|] == ':' && s[|l| + 1] == ':'
            && (forall i | 0 <= i < |l| :: s[i] == l[i])
            && (forall i | |l| + 2 <= i < |s| :: s[i] == r[i - |l| - 2])
  {
  }

  lemma NoThreeColons(l: string, r: string, i: nat)
    requires Tidy(l) && Tidy(r)
    ensures !At(l + "::" + r, ":::", i)
  {
    ElidedChars(l, r);
    TripleAt(l + "::" + r, i);
    if i + 2 < |l| {
      assert l[i] != ':' || l[i + 1] != ':';
    } else if i >= |l| + 2 && i + 2 < |l| + 2 + |r| {
      var k := i - |l| - 2;
      assert r[k] != ':' || r[k + 1] != ':';
    }
  }

  lemma TwoColonsFirst(l: string, r: string, i: nat)
    requires Tidy(l) && Tidy(r) && i < |l|
    ensures !At(l + "::" + r, "::", i)
  {
    ElidedChars(l, r);
    DoubleAt(l + "::" + r, i);
    if i + 1 < |l| {
      assert l[i] != ':' || l[i + 1] != ':';
    }
  }

  lemma ElidedColons(l: string, r: string)
    requires Tidy(l) && Tidy(r)
    ensures ColonsOk(l + "::" + r) && IndexOf(l + "::" + r, "::") == |l|
  {
    var s := l + "::" + r;
    ElidedChars(l, r);
    DoubleAt(s, |l|);
    var i, j := IndexOf(s, "::"), IndexOf(s, ":::");
    if 0 <= i < |l| {
      TwoColonsFirst(l, r, i);
    }
    if j >= 0 {
      NoThreeColons(l, r, j);
    }
    ElidedEnds(l, r);
  }

  lemma ElidedEnds(l: string, r: string)
    requires Tidy(l) && Tidy(r)
    ensures var s := l + "::" + r;
            (StartsWith(s, ":") ==> StartsWith(s, "::")) && (EndsWith(s, ":") ==> EndsWith(s, "::"))
  {
    var s := l + "::" + r;
    if l == "" {
      assert s[..2] == "::";
    } else {
      assert s[0] == l[0] && s[..1] == [s[0]];
    }
    if r == "" {
      assert s[|s| - 2..] == "::";
    } else {
      assert s[|s| - 1] == r[|r| - 1] && s[|s| - 1..] == [s[|s| - 1]];
    }
  }

  lemma ElidedSplit(l: string, r: string)
    requires Tidy(l) && Tidy(r)
    ensures SplitOn(l + "::" + r, "::") == [l, r]
  {
    var s := l + "::" + r;
    ElidedColons(l, r);
    TidyHasNoDouble(r);
    assert s[..|l|] == l && s[|l| + 2..] == r;
  }

  lemma HalfOfGroups(groups: seq<string>)
    requires IsGroups(groups)
    ensures Halves(Join(groups, ':')) == groups && "" !in groups
  {
    JoinIsTidy(groups);
    if groups != [] {
      GroupsSplit(groups);
    }
  }

  function ZeroWords(n: nat): Words {
    seq(n, _ => 0)
  }

  lemma FilledValues(left: seq<string>, right: seq<string>, n: nat)
    requires IsGroups(left) && IsGroups(right)
    ensures IsGroups(left + Zeros(n) + right)
    ensures GroupValues(left + Zeros(n) + right) == GroupValues(left) + ZeroWords(n) + GroupValues(right)
  {
    assert Hexadecimal("0") == 0 && IsGroup("0");
  }

  lemma ElidedGroups(left: seq<string>, right: seq<string>)
    requires IsGroups(left) && IsGroups(right) && |left| + |right| <= 7
    ensures Groups(Join(left, ':') + "::" + Join(right, ':')) == Some(left + Zeros(8 - |left| - |right|) + right)
  {
    var l, r := Join(left, ':'), Join(right, ':');
    JoinIsTidy(left);
    JoinIsTidy(right);
    ElidedColons(l, r);
    ElidedSplit(l, r);
    HalfOfGroups(left);
    HalfOfGroups(right);
    GroupsOfHalves(l + "::" + r, l, r, left, right);
  }

  lemma GroupsOfHalves(s: string, l: string, r: string, left: seq<string>, right: seq<string>)
    requires Includes(s, "::") && SplitOn(s, "::") == [l, r] && Halves(l) == left && Halves(r) == right
    requires "" !in left && "" !in right && |left| + |right| <= 7
    ensures Groups(s) == Some(left + Zeros(8 - |left| - |right|) + right)
  {
  }

  lemma ElidedText(left: seq<string>, right: seq<string>)
    requires IsGroups(left) && IsGroups(right)
    ensures var s := Join(left, ':') + "::" + Join(right, ':'); ColonsOk(s) && EmbedQuad(s) == Some(s)
  {
    JoinIsTidy(left);
    JoinIsTidy(right);
    ElidedColons(Join(left, ':'), Join(right, ':'));
    NoDotsNoQuad(Join(left, ':') + "::" + Join(right, ':'));
  }

  lemma ParseOfGroups(s: string, groups: seq<string>, ws: Words)
    requires ColonsOk(s) && EmbedQuad(s) == Some(s) && Groups(s) == Some(groups)
    requires |groups| == 8 && IsGroups(groups) && GroupValues(groups) == ws
    ensures ParseClean(s) == Some(ws)
  {
  }

  lemma FilledGroups(left: seq<string>, right: seq<string>, groups: seq<string>, ws: Words)
    requires IsGroups(left) && IsGroups(right) && |left| + |right| <= 7
    requires groups == left + Zeros(8 - |left| - |right|) + right
    requires ws == GroupValues(left) + ZeroWords(8 - |left| - |right|) + GroupValues(right)
    ensures |groups| == 8 && IsGroups(groups) && GroupValues(groups) == ws
  {
    FilledValues(left, right, 8 - |left| - |right|);
  }

  lemma ElidedParts(t: string, left: seq<string>, right: seq<string>, groups: seq<string>)
    requires IsGroups(left) && IsGroups(right) && |left| + |right| <= 7
    requires t == Join(left, ':') + "::" + Join(right, ':')
    requires groups == left + Zeros(8 - |left| - |right|) + right
    ensures ColonsOk(t) && EmbedQuad(t) == Some(t) && Groups(t) == Some(groups)
  {
    ElidedGroups(left, right);
    ElidedText(left, right);
  }

  /** Up to seven groups with one `::` among them parse to their values with zeros in its place. */
  lemma ElidedFormParses(t: string, left: seq<string>, right: seq<string>, ws: Words)
    requires IsGroups(left) && IsGroups(right) && |left| + |right| <= 7
    requires t == Join(left, ':') + "::" + Join(right, ':')
    requires ws == GroupValues(left) + ZeroWords(8 - |left| - |right|) + GroupValues(right)
    ensures ParseClean(t) == Some(ws)
  {
    var groups := left + Zeros(8 - |left| - |right|) + right;
    ElidedParts(t, left, right, groups);
    FilledGroups(left, right, groups, ws);
    ParseOfGroups(t, groups, ws);
  }

  predicate AllZero(groups: seq<string>) {
    forall k | 0 <= k < |groups| :: IsGroup(groups[k]) && Hexadecimal(groups[k]) == 0
  }

  lemma ElidedValues(left: seq<string>, zeros: seq<string>, right: seq<string>)
    requires IsGroups(left) && IsGroups(right) && AllZero(zeros)
    ensures IsGroups(left + zeros + right)
    ensures GroupValues(left + zeros + right) == GroupValues(left) + ZeroWords(|zeros|) + GroupValues(right)
  {
  }

  /** Replacing any run of zero groups by `::` does not change the address. */
  lemma ElisionKeepsAddress(left: seq<string>, zeros: seq<string>, right: seq<string>)
    requires IsGroups(left) && IsGroups(right) && AllZero(zeros)
    requires zeros != [] && |left| + |zeros| + |right| == 8
    ensures ParseClean(Join(left, ':') + "::" + Join(right, ':')) == ParseClean(Join(left + zeros + right, ':'))
  {
    ElidedValues(left, zeros, right);
    ElidedFormParses(Join(left, ':') + "::" + Join(right, ':'), left, right,
                     GroupValues(left) + ZeroWords(8 - |left| - |right|) + GroupValues(right));
    FullFormParses(left + zeros + right);
  }

  // ---------- what is accepted ----------

  /** The text forms of section 2.2 of RFC 4291 without a dotted quad: eight groups, or fewer around one `::`. */
  ghost predicate IsFullForm(s: string) {
    exists groups :: IsGroups(groups) && |groups| == 8 && s == Join(groups, ':')
  }

  ghost predicate IsElidedForm(s: string) {
    exists left, right :: IsGroups(left) && IsGroups(right) && |left| + |right| <= 7
                          && s == Join(left, ':') + "::" + Join(right, ':')
  }

  lemma SplitInTwo(s: string)
    requires |SplitOn(s, "::")| == 2
    ensures s == SplitOn(s, "::")[0] + "::" + SplitOn(s, "::")[1]
  {
    var i := IndexOf(s, "::");
    assert s[i..i + 2] == "::";
    assert s == s[..i] + s[i..i + 2] + s[i + 2..];
  }

  lemma HalvesJoin(s: string)
    ensures Join(Halves(s), ':') == s
  {
    JoinSplit(s, ':');
  }

  lemma GroupsAreForm(s: string)
    requires Groups(s).Some? && WordsOf(Groups(s).value).Some?
    ensures IsFullForm(s) || IsElidedForm(s)
  {
    var groups := Groups(s).value;
    if Includes(s, "::") {
      var halves := SplitOn(s, "::");
      var left, right := Halves(halves[0]), Halves(halves[1]);
      SplitInTwo(s);
      HalvesJoin(halves[0]);
      HalvesJoin(halves[1]);
      assert forall g | g in left :: g in groups;
      assert forall g | g in right :: g in groups;
      assert IsGroups(left) && IsGroups(right) && s == Join(left, ':') + "::" + Join(right, ':');
    } else {
      JoinSplit(s, ':');
      assert IsGroups(groups) && |groups| == 8 && s == Join(groups, ':');
    }
  }

  /** Without a dotted quad the parser accepts exactly the texts of those forms. */
  lemma AcceptsExactlyTheForms(s: string)
    requires '.' !in s
    ensures ParseClean(s).Some? <==> IsFullForm(s) || IsElidedForm(s)
  {
    NoDotsNoQuad(s);
    if ParseClean(s).Some? {
      GroupsAreForm(s);
    }
    if IsFullForm(s) {
      var groups :| IsGroups(groups) && |groups| == 8 && s == Join(groups, ':');
      FullFormParses(groups);
    } else if IsElidedForm(s) {
      var left, right :| IsGroups(left) && IsGroups(right) && |left| + |right| <= 7
                         && s == Join(left, ':') + "::" + Join(right, ':');
      ElidedFormParses(s, left, right, GroupValues(left) + ZeroWords(8 - |left| - |right|) + GroupValues(right));
    }
  }

  // ---------- dotted quads ----------

  lemma {:induction false} HexRoundTrip(n: nat, k: nat)
    requires n < Pow2(4 * k) && k > 0
    ensures 1 <= |ToHex(n)| <= k
    ensures (forall i | 0 <= i < |ToHex(n)| :: IsHexDigit(ToHex(n)[i])) && Hexadecimal(ToHex(n)) == n
    decreases n
  {
    if n < 16 {
      assert ToHex(n)[..0] == "";
    } else {
      Pow2Sum(4, 4 * (k - 1));
      PowersOfTwo();
      assert k > 1;
      HexRoundTrip(n / 16, k - 1);
      assert ToHex(n)[..|ToHex(n)| - 1] == ToHex(n / 16);
    }
  }

  lemma WordToHex(n: nat)
    requires n < 0x1_0000
    ensures IsGroup(ToHex(n)) && Hexadecimal(ToHex(n)) == n
  {
    PowersOfTwo();
    HexRoundTrip(n, 4);
  }

  /** The text of an IPv4 address, without surrounding space. */
  predicate IsQuadText(d: string) {
    Text.Trim(d) == d && Ipv4Number(d).Some?
  }

  lemma {:induction false} JoinedChars(parts: seq<string>, c: char)
    requires forall p | p in parts :: AllDigits(p)
    ensures forall i | 0 <= i < |Join(parts, c)| :: IsDigit(Join(parts, c)[i]) || Join(parts, c)[i] == c
  {
    if parts != [] {
      assert AllDigits(parts[0]);
      JoinedChars(parts[1..], c);
    }
  }

  lemma QuadChars(d: string)
    requires IsQuadText(d)
    ensures d != "" && '.' in d && forall i | 0 <= i < |d| :: IsDigit(d[i]) || d[i] == '.'
  {
    var parts := Split(d, '.');
    JoinSplit(d, '.');
    assert parts == [parts[0], parts[1], parts[2], parts[3]];
    JoinedChars(parts, '.');
    if '.' !in d {
      SplitAlone(d, '.');
    }
  }

  lemma QuadHalves(v: nat)
    requires v < 0x1_0000_0000
    ensures And(ShiftRight(v, 16), 0xffff) == v / 0x1_0000 && And(v, 0xffff) == v % 0x1_0000
  {
    PowersOfTwo();
    QuotientIs(v, 0x1_0000);
    AndLowOnes(v / 0x1_0000, 16);
    AndLowOnes(v, 16);
  }

  function TwoGroups(v: nat): string
    requires v < 0x1_0000_0000
  {
    ToHex(v / 0x1_0000) + ":" + ToHex(v % 0x1_0000)
  }

  // Three colons in a row stand within p, which ends in at least one that t does not continue.
  lemma TailTriples(p: string, t: string)
    requires p != "" && p[|p| - 1] == ':' && t != "" && Tidy(t)
    ensures Includes(p + t, ":::") <==> Includes(p, ":::")
  {
    var s := p + t;
    forall i ensures At(s, ":::", i) <==> At(p, ":::", i) {
      TripleAt(s, i);
      TripleAt(p, i);
      if 0 <= i && i + 3 <= |s| {
        TriplePlace(p, t, i);
      }
    }
  }

  lemma TriplePlace(p: string, t: string, i: nat)
    requires p != "" && t != "" && Tidy(t) && i + 3 <= |p + t|
    ensures var s := p + t; s[i] == ':' && s[i + 1] == ':' && s[i + 2] == ':' ==> i + 3 <= |p|
  {
    var s := p + t;
    if i + 3 > |p| {
      assert s[i + 2] == t[i + 2 - |p|];
      if i + 2 > |p| {
        assert s[i + 1] == t[i + 1 - |p|];
      }
    }
  }

  lemma TailColons(p: string, t: string)
    requires p != "" && p[|p| - 1] == ':' && t != "" && Tidy(t)
    ensures ColonsOk(p + t) <==> !Includes(p, ":::") && (p[0] == ':' ==> StartsWith(p, "::"))
  {
    var s := p + t;
    assert forall i | 0 <= i < |p| :: s[i] == p[i];
    assert forall i | |p| <= i < |s| :: s[i] == t[i - |p|];
    TailTriples(p, t);
    assert s[..1] == [p[0]] && s[|s| - 1..] == [t[|t| - 1]];
    if |p| >= 2 {
      assert s[..2] == p[..2];
    } else {
      assert s[..2] == [p[0], t[0]];
    }
  }

  /** What may follow the last colon and be read as an IPv4 address; spaces around the quad do no harm. */
  predicate IsTail(d: string) {
    ':' !in d && '.' in d && Ipv4Number(d).Some?
  }

  lemma DottedTail(p: string, d: string)
    requires p != "" && p[|p| - 1] == ':' && IsTail(d)
    ensures EmbedQuad(p + d) == Some(p + TwoGroups(Ipv4Number(d).value))
  {
    var v := Ipv4Number(d).value;
    LastColonTail(p, d);
    QuadHalves(v);
    assert p + ToHex(v / 0x1_0000) + ":" + ToHex(v % 0x1_0000) == p + TwoGroups(v);
  }

  lemma LastColonTail(p: string, d: string)
    requires p != "" && p[|p| - 1] == ':' && ':' !in d && '.' in d
    ensures var s := p + d;
            LastIndexOf(s, ':') == |p| - 1 && s[|p|..] == d && s[..|p|] == p && Includes(d, ".")
  {
    var q := p[..|p| - 1];
    LastColonBefore(q, d);
    assert q + ":" + d == p + d;
    OneCharacter(d, '.');
  }

  lemma TwoGroupsShape(v: nat)
    requires v < 0x1_0000_0000
    ensures var h, l := ToHex(v / 0x1_0000), ToHex(v % 0x1_0000);
            IsGroup(h) && IsGroup(l) && TwoGroups(v) == Join([h, l], ':')
    ensures Tidy(TwoGroups(v))
  {
    var h, l := ToHex(v / 0x1_0000), ToHex(v % 0x1_0000);
    WordToHex(v / 0x1_0000);
    WordToHex(v % 0x1_0000);
    assert Join([h, l], ':') == h + [':'] + Join([h, l][1..], ':') && [h, l][1..] == [l];
    assert IsGroups([h, l]);
    JoinIsTidy([h, l]);
  }

  lemma HexTail(p: string, v: nat)
    requires v < 0x1_0000_0000
    ensures EmbedQuad(p + TwoGroups(v)) == Some(p + TwoGroups(v))
  {
    var h, l := ToHex(v / 0x1_0000), ToHex(v % 0x1_0000);
    TwoGroupsShape(v);
    GroupChars(l);
    assert p + TwoGroups(v) == p + h + ":" + l;
    HexTailStays(p + TwoGroups(v), p, h, l);
  }

  lemma HexTailStays(s: string, p: string, h: string, l: string)
    requires ':' !in l && '.' !in l && s == p + h + ":" + l
    ensures EmbedQuad(s) == Some(s)
  {
    LastColonBefore(p + h, l);
    OneCharacter(l, '.');
  }

  lemma LastColonBefore(p: string, t: string)
    requires ':' !in t
    ensures var s := p + ":" + t; LastIndexOf(s, ':') == |p| && s[|p| + 1..] == t
  {
    var s := p + ":" + t;
    assert s[|p|] == ':' && forall i | |p| < i < |s| :: s[i] == t[i - |p| - 1];
  }

  lemma TailIsTwoGroups(p: string, d: string)
    requires p != "" && p[|p| - 1] == ':' && IsTail(d)
    ensures ParseClean(p + d) == ParseClean(p + TwoGroups(Ipv4Number(d).value))
  {
    var v := Ipv4Number(d).value;
    assert Tidy(d);
    TwoGroupsShape(v);
    HexTail(p, v);
    TailColons(p, d);
    TailColons(p, TwoGroups(v));
    DottedTail(p, d);
  }

  /** After any text ending in a colon, a dotted quad means the same as its two groups. */
  lemma DottedQuadIsTwoGroups(p: string, d: string)
    requires p != "" && p[|p| - 1] == ':' && IsQuadText(d)
    ensures ParseClean(p + d) == ParseClean(p + TwoGroups(Ipv4Number(d).value))
  {
    QuadChars(d);
    TailIsTwoGroups(p, d);
  }

  /** The last two groups of an IPv4 number. */
  function QuadGroups(v: nat): seq<string>
    requires v < 0x1_0000_0000
  {
    [ToHex(v / 0x1_0000), ToHex(v % 0x1_0000)]
  }

  lemma QuadGroupValues(v: nat)
    requires v < 0x1_0000_0000
    ensures IsGroups(QuadGroups(v)) && Join(QuadGroups(v), ':') == TwoGroups(v)
    ensures GroupValues(QuadGroups(v)) == [v / 0x1_0000, v % 0x1_0000]
  {
    TwoGroupsShape(v);
    WordToHex(v / 0x1_0000);
    WordToHex(v % 0x1_0000);
  }

  lemma ValuesAppend(groups: seq<string>, more: seq<string>)
    requires IsGroups(groups) && IsGroups(more)
    ensures IsGroups(groups + more) && GroupValues(groups + more) == GroupValues(groups) + GroupValues(more)
  {
  }

  /** Six groups and a dotted quad parse to the groups' values and the two halves of the quad. */
  lemma FullQuadParses(groups: seq<string>, d: string)
    requires IsGroups(groups) && |groups| == 6 && IsQuadText(d)
    ensures var v := Ipv4Number(d).value;
            ParseClean(Join(groups, ':') + ":" + d) == Some(GroupValues(groups) + [v / 0x1_0000, v % 0x1_0000])
  {
    var v, p := Ipv4Number(d).value, Join(groups, ':') + ":";
    QuadGroupValues(v);
    DottedQuadIsTwoGroups(p, d);
    JoinAppend(groups, QuadGroups(v), ':');
    ValuesAppend(groups, QuadGroups(v));
    FullFormParses(groups + QuadGroups(v));
    assert p + TwoGroups(v) == Join(groups + QuadGroups(v), ':');
  }

  /** The text between `::` and a dotted quad. */
  function Between(mid: seq<string>): string {
    if mid == [] then "" else Join(mid, ':') + ":"
  }

  lemma BetweenJoin(mid: seq<string>, v: nat)
    requires v < 0x1_0000_0000
    ensures Between(mid) + TwoGroups(v) == Join(mid + QuadGroups(v), ':')
  {
    QuadGroupValues(v);
    if mid == [] {
      assert mid + QuadGroups(v) == QuadGroups(v);
    } else {
      JoinAppend(mid, QuadGroups(v), ':');
    }
  }

  lemma TextBeforeQuad(left: seq<string>, mid: seq<string>, p: string)
    requires p == Join(left, ':') + "::" + Between(mid)
    ensures p != "" && p[|p| - 1] == ':'
  {
  }

  lemma ElidedQuadText(left: seq<string>, mid: seq<string>, p: string, v: nat)
    requires p == Join(left, ':') + "::" + Between(mid) && v < 0x1_0000_0000
    ensures p + TwoGroups(v) == Join(left, ':') + "::" + Join(mid + QuadGroups(v), ':')
  {
    BetweenJoin(mid, v);
    Regroup(Join(left, ':'), "::", Between(mid), TwoGroups(v));
  }

  lemma Regroup(a: string, b: string, c: string, d: string)
    ensures a + b + c + d == a + b + (c + d)
  {
  }

  lemma ElidedQuadValues(left: seq<string>, mid: seq<string>, v: nat, right: seq<string>, ws: Words)
    requires IsGroups(left) && IsGroups(mid) && |left| + |mid| <= 5 && v < 0x1_0000_0000
    requires right == mid + QuadGroups(v)
    requires ws == GroupValues(left) + ZeroWords(6 - |left| - |mid|) + (GroupValues(mid) + [v / 0x1_0000, v % 0x1_0000])
    ensures IsGroups(right) && ws == GroupValues(left) + ZeroWords(6 - |left| - |mid|) + GroupValues(right)
  {
    QuadGroupValues(v);
    ValuesAppend(mid, QuadGroups(v));
  }

  // A text whose two-group form is known.
  lemma QuadAsGroups(p: string, d: string, t: string, ws: Words)
    requires p != "" && p[|p| - 1] == ':' && IsQuadText(d)
    requires t == p + TwoGroups(Ipv4Number(d).value) && ParseClean(t) == Some(ws)
    ensures ParseClean(p + d) == Some(ws)
  {
    DottedQuadIsTwoGroups(p, d);
  }

  lemma TwoGroupForm(left: seq<string>, mid: seq<string>, p: string, v: nat, ws: Words, t: string, right: seq<string>)
    requires IsGroups(left) && IsGroups(mid) && |left| + |mid| <= 5 && v < 0x1_0000_0000
    requires p == Join(left, ':') + "::" + Between(mid) && t == p + TwoGroups(v) && right == mid + QuadGroups(v)
    requires ws == GroupValues(left) + ZeroWords(6 - |left| - |mid|) + (GroupValues(mid) + [v / 0x1_0000, v % 0x1_0000])
    ensures t == Join(left, ':') + "::" + Join(right, ':') && IsGroups(right) && |left| + |right| <= 7
    ensures ws == GroupValues(left) + ZeroWords(8 - |left| - |right|) + GroupValues(right)
  {
    ElidedQuadText(left, mid, p, v);
    ElidedQuadValues(left, mid, v, right, ws);
  }

  lemma ElidedTwoGroupsParse(left: seq<string>, mid: seq<string>, p: string, v: nat, ws: Words, t: string, right: seq<string>)
    requires IsGroups(left) && IsGroups(mid) && |left| + |mid| <= 5 && v < 0x1_0000_0000 && right == mid + QuadGroups(v)
    requires p == Join(left, ':') + "::" + Between(mid) && t == p + TwoGroups(v)
    requires ws == GroupValues(left) + ZeroWords(6 - |left| - |mid|) + (GroupValues(mid) + [v / 0x1_0000, v % 0x1_0000])
    ensures ParseClean(t) == Some(ws)
  {
    TwoGroupForm(left, mid, p, v, ws, t, right);
    ElidedFormParses(t, left, right, ws);
  }

  /** The same with one `::` among at most five groups before the quad. */
  lemma ElidedQuadParses(left: seq<string>, mid: seq<string>, p: string, d: string, ws: Words)
    requires IsGroups(left) && IsGroups(mid) && |left| + |mid| <= 5 && IsQuadText(d)
    requires p == Join(left, ':') + "::" + Between(mid)
    requires var v := Ipv4Number(d).value;
             ws == GroupValues(left) + ZeroWords(6 - |left| - |mid|) + (GroupValues(mid) + [v / 0x1_0000, v % 0x1_0000])
    ensures ParseClean(p + d) == Some(ws)
  {
    var v := Ipv4Number(d).value;
    var t := p + TwoGroups(v);
    ElidedTwoGroupsParse(left, mid, p, v, ws, t, mid + QuadGroups(v));
    TextBeforeQuad(left, mid, p);
    QuadAsGroups(p, d, t, ws);
  }

  // ---------- brackets, zones and case ----------

  lemma FirstPart(t: string, zone: string)
    requires '%' !in t
    ensures Split(t + "%" + zone, '%')[0] == t && Split(t, '%')[0] == t
  {
    SplitFirst(t, '%', zone);
    assert t + "%" + zone == t + ['%'] + zone;
    SplitAlone(t, '%');
  }

  predicate Unwrapped(t: string) {
    '%' !in t && '[' !in t && ']' !in t
  }

  lemma BarePlain(t: string)
    requires Unwrapped(t)
    ensures Bare(t) == t
  {
    StripPlain(t);
    SplitAlone(t, '%');
  }

  lemma BareWrapped(t: string)
    requires Unwrapped(t)
    ensures Bare("[" + t + "]") == t
  {
    StripWrapped(t);
    SplitAlone(t, '%');
  }

  lemma BareWrappedZone(t: string, zone: string)
    requires Unwrapped(t)
    ensures Bare("[" + (t + "%" + zone) + "]") == t
  {
    StripWrapped(t + "%" + zone);
    FirstPart(t, zone);
  }

  lemma StripZone(t: string, zone: string)
    requires Unwrapped(t)
    ensures Bare(t + "%" + zone) == t
  {
    var s := t + "%" + zone;
    ZoneStart(t, zone);
    if EndsWith(s, "]") {
      ZoneEnd(t, zone);
      FirstPart(t, zone[..|zone| - 1]);
    } else {
      FirstPart(t, zone);
    }
  }

  lemma ZoneStart(t: string, zone: string)
    requires Unwrapped(t)
    ensures !StartsWith(t + "%" + zone, "[")
  {
    var s := t + "%" + zone;
    OneCharacter(s, '[');
    assert s[0] == if t == "" then '%' else t[0];
  }

  lemma ZoneEnd(t: string, zone: string)
    requires EndsWith(t + "%" + zone, "]")
    ensures var s := t + "%" + zone; zone != "" && s[..|s| - 1] == t + "%" + zone[..|zone| - 1]
  {
    OneCharacter(t + "%" + zone, ']');
  }

  lemma StripPlain(t: string)
    requires '[' !in t && ']' !in t
    ensures StripBrackets(t) == t
  {
    OneCharacter(t, '[');
    OneCharacter(t, ']');
  }

  lemma StripWrapped(t: string)
    ensures StripBrackets("[" + t + "]") == t
  {
    var s := "[" + t + "]";
    OneCharacter(s, '[');
    OneCharacter(t + "]", ']');
    assert s[1..] == t + "]" && (t + "]")[..|t|] == t;
  }

  /** Brackets and a zone never change the parsed address. */
  lemma DecorationsIgnored(t: string, zone: string)
    requires Unwrapped(t)
    ensures ParseWords("[" + t + "]") == ParseWords(t)
    ensures ParseWords(t + "%" + zone) == ParseWords(t)
    ensures ParseWords("[" + (t + "%" + zone) + "]") == ParseWords(t)
  {
    BarePlain(t);
    BareWrapped(t);
    StripZone(t, zone);
    BareWrappedZone(t, zone);
    CleanOfBare(t, "[" + t + "]");
    CleanOfBare(t, t + "%" + zone);
    CleanOfBare(t, "[" + (t + "%" + zone) + "]");
  }

  lemma CleanOfBare(s: string, s': string)
    requires Bare(s) == Bare(s')
    ensures ParseWords(s) == ParseWords(s')
  {
    WordsOfClean(s, s');
  }

  lemma {:induction false} LowerSplit(s: string)
    ensures Split(Text.Lower(s), '%')[0] == Text.Lower(Split(s, '%')[0])
  {
    if s != "" {
      assert Text.Lower(s)[1..] == Text.Lower(s[1..]);
      LowerSplit(s[1..]);
      if s[0] != '%' {
        assert Text.Lower([s[0]] + Split(s[1..], '%')[0]) == [Text.LowerChar(s[0])] + Text.Lower(Split(s[1..], '%')[0]);
      }
    }
  }

  lemma LowerStrip(s: string)
    ensures StripBrackets(Text.Lower(s)) == Text.Lower(StripBrackets(s))
  {
    var l := Text.Lower(s);
    OneCharacter(s, '[');
    OneCharacter(l, '[');
    var s' := if StartsWith(s, "[") then s[1..] else s;
    var l' := if StartsWith(l, "[") then l[1..] else l;
    LowerEnd(s', l');
  }

  lemma LowerEnd(s: string, l: string)
    requires l == Text.Lower(s)
    ensures var cut := (t: string) => if EndsWith(t, "]") then t[..|t| - 1] else t; cut(l) == Text.Lower(cut(s))
  {
    OneCharacter(s, ']');
    OneCharacter(l, ']');
    if s != "" && s[|s| - 1] == ']' {
      assert l[..|l| - 1] == Text.Lower(s[..|s| - 1]);
    }
  }

  /** Case never changes the parsed address. */
  lemma CaseIgnored(s: string)
    ensures ParseWords(Text.Lower(s)) == ParseWords(s)
  {
    LowerClean(s);
    WordsOfClean(s, Text.Lower(s));
  }

  lemma LowerClean(s: string)
    ensures Clean(Text.Lower(s)) == Clean(s)
  {
    LowerStrip(s);
    LowerSplit(StripBrackets(s));
    assert Text.Lower(Text.Lower(Bare(s))) == Text.Lower(Bare(s));
  }

  lemma WordsOfClean(s: string, s': string)
    requires Clean(s) == Clean(s')
    ensures ParseWords(s) == ParseWords(s')
  {
  }
}
