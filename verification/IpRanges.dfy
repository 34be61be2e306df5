/** What prefixes of IPv6 addresses mean in words, and the patterns the tables of prefixes stand for. */
module IpRanges {
  import opened Wrappers
  import opened Bits
  import opened Strings
  import opened IpText
  import opened IpAddress
  import opened IpParsing
  import Text

  // ---------- words of a number ----------

  lemma DivideTwice(a: nat, m: nat, n: nat)
    requires m > 0 && n > 0
    ensures m * n > 0 && Quotient(a, m * n) == Quotient(Quotient(a, m), n)
  {
    QuotientIs(a, m);
    QuotientIs(a / m, n);
    DivisionTwice(a, m, n);
    QuotientIs(a, m * n);
  }

  lemma DivisionTwice(a: nat, m: nat, n: nat)
    requires m > 0 && n > 0
    ensures m * n > 0 && a / (m * n) == (a / m) / n
  {
    var q, y := a / m, a % m;
    var h, x := q / n, q % n;
    assert a == q * m + y;
    assert q == h * n + x;
    Regroup(h, n, x, m);
    RemainderFits(x, y, m, n);
    RemainderIs(a, m * n, h, x * m + y);
  }

  lemma Regroup(h: nat, n: nat, x: nat, m: nat)
    ensures (h * n + x) * m == h * (m * n) + x * m
  {
    assert (h * n + x) * m == h * n * m + x * m;
    assert h * n * m == h * (m * n);
  }

  lemma RemainderFits(x: nat, y: nat, m: nat, n: nat)
    requires x < n && y < m
    ensures x * m + y < m * n
  {
    assert x * m <= (n - 1) * m;
    assert (n - 1) * m == m * n - m;
  }

  lemma ShiftTwice(a: nat, j: nat, k: nat)
    ensures ShiftRight(a, j + k) == ShiftRight(ShiftRight(a, j), k)
  {
    Pow2Sum(j, k);
    DivideTwice(a, Pow2(j), Pow2(k));
  }

  lemma OneWordOff(v: nat, w: nat)
    requires w < 0x1_0000
    ensures ShiftRight(0x1_0000 * v + w, 16) == v
  {
    PowersOfTwo();
    QuotientIs(0x1_0000 * v + w, 0x1_0000);
  }

  lemma NothingOff(v: nat)
    ensures ShiftRight(v, 0) == v
  {
    QuotientIs(v, 1);
  }

  /** Shifting out whole words drops them. */
  lemma {:induction false} DropWords(ws: Words, j: nat)
    requires j <= |ws| && forall i | 0 <= i < |ws| :: ws[i] < 0x1_0000
    ensures ShiftRight(Value(ws), 16 * j) == Value(ws[..|ws| - j])
  {
    if j == 0 {
      assert ws[..|ws|] == ws;
      NothingOff(Value(ws));
    } else {
      var init, last := ws[..|ws| - 1], ws[|ws| - 1];
      ShiftTwice(Value(ws), 16, 16 * (j - 1));
      OneWordOff(Value(init), last);
      DropWords(init, j - 1);
      assert init[..|init| - (j - 1)] == ws[..|ws| - j];
    }
  }

  /** Numbers of equally many words are equal only word by word. */
  lemma {:induction false} ValueInjective(ws: Words, ps: Words)
    requires |ws| == |ps|
    requires forall i | 0 <= i < |ws| :: ws[i] < 0x1_0000 && ps[i] < 0x1_0000
    ensures Value(ws) == Value(ps) <==> ws == ps
  {
    if ws != [] {
      ValueInjective(ws[..|ws| - 1], ps[..|ps| - 1]);
      assert ws == ws[..|ws| - 1] + [ws[|ws| - 1]] && ps == ps[..|ps| - 1] + [ps[|ps| - 1]];
    }
  }

  /** The two words at the end as one number. */
  lemma LastTwoWords(ws: Words)
    requires |ws| >= 2 && forall i | 0 <= i < |ws| :: ws[i] < 0x1_0000
    ensures Value(ws) % 0x1_0000_0000 == 0x1_0000 * ws[|ws| - 2] + ws[|ws| - 1]
  {
    var init := ws[..|ws| - 1];
    assert init[|init| - 1] == ws[|ws| - 2];
    assert Value(ws) == 0x1_0000_0000 * Value(init[..|init| - 1]) + 0x1_0000 * ws[|ws| - 2] + ws[|ws| - 1];
  }

  // ---------- prefixes that end inside a word ----------

  /** The first k words agree, and word k agrees above its low `bits` bits. */
  predicate SamePrefix(ws: Words, ps: Words, k: nat, bits: nat)
    requires |ws| == |ps| == 8 && k <= 8
  {
    ws[..k] == ps[..k] && (k < 8 ==> Quotient(ws[k], Pow2(bits)) == Quotient(ps[k], Pow2(bits)))
  }

  lemma HighPart(v: nat, w: nat, p: nat, q: nat)
    requires p > 0 && p * q == 0x1_0000
    ensures Quotient(0x1_0000 * v + w, p) == q * v + Quotient(w, p)
  {
    HighDivision(v, w, p, q);
    QuotientIs(w, p);
    QuotientIs(0x1_0000 * v + w, p);
  }

  lemma HighDivision(v: nat, w: nat, p: nat, q: nat)
    requires p > 0 && p * q == 0x1_0000
    ensures (0x1_0000 * v + w) / p == q * v + w / p
  {
    var r := w % p;
    assert w == (w / p) * p + r;
    assert 0x1_0000 * v == (q * v) * p by {
      assert (p * q) * v == (q * v) * p;
    }
    assert (q * v + w / p) * p == (q * v) * p + (w / p) * p;
    RemainderIs(0x1_0000 * v + w, p, q * v + w / p, r);
  }

  lemma HighBound(w: nat, p: nat, q: nat)
    requires p > 0 && p * q == 0x1_0000 && w < 0x1_0000
    ensures Quotient(w, p) < q
  {
    var d := w / p - q;
    QuotientIs(w, p);
    assert w == (w / p) * p + w % p;
    assert d * p == (w / p) * p - q * p;
    NoSign(d, p);
  }

  lemma NoSign(d: int, p: int)
    requires p > 0
    ensures d >= 0 ==> d * p >= 0
  {
  }

  lemma SplitUnique(v: nat, h: nat, v': nat, h': nat, q: nat)
    requires h < q && h' < q
    ensures q * v + h == q * v' + h' <==> v == v' && h == h'
  {
    if q * v + h == q * v' + h' {
      RemainderIs(q * v + h, q, v, h);
      RemainderIs(q * v' + h', q, v', h');
    }
  }

  lemma WordSplits(bits: nat)
    requires bits <= 16
    ensures Pow2(bits) * Pow2(16 - bits) == 0x1_0000
  {
    Pow2Sum(bits, 16 - bits);
    PowersOfTwo();
  }

  // What is left of a number after shifting out all but its first k words and the top of the next.
  lemma TopBits(ws: Words, k: nat, bits: nat)
    requires IsWords(ws) && k < 8 && bits <= 16
    ensures ShiftRight(Value(ws), 16 * (7 - k) + bits)
            == Pow2(16 - bits) * Value(ws[..k]) + Quotient(ws[k], Pow2(bits))
    ensures Quotient(ws[k], Pow2(bits)) < Pow2(16 - bits)
  {
    var p, q := Pow2(bits), Pow2(16 - bits);
    WordSplits(bits);
    TopWords(ws, k, bits);
    HighPart(Value(ws[..k]), ws[k], p, q);
    HighBound(ws[k], p, q);
  }

  lemma TopWords(ws: Words, k: nat, bits: nat)
    requires IsWords(ws) && k < 8
    ensures ShiftRight(Value(ws), 16 * (7 - k) + bits) == Quotient(0x1_0000 * Value(ws[..k]) + ws[k], Pow2(bits))
  {
    ShiftTwice(Value(ws), 16 * (7 - k), bits);
    DropWords(ws, 7 - k);
    TopOf(ws, k);
  }

  /** A prefix of 16 k + (16 - bits) bits, read on words. */
  lemma PrefixOnWords(ws: Words, ps: Words, k: nat, bits: nat)
    requires IsWords(ws) && IsWords(ps) && k < 8 && bits <= 16
    ensures InBlock(Value(ws), Value(ps), 16 * (7 - k) + bits) <==> SamePrefix(ws, ps, k, bits)
  {
    TopBits(ws, k, bits);
    TopBits(ps, k, bits);
    SplitUnique(Value(ws[..k]), Quotient(ws[k], Pow2(bits)), Value(ps[..k]), Quotient(ps[k], Pow2(bits)), Pow2(16 - bits));
    ValueInjective(ws[..k], ps[..k]);
  }

  lemma TopOf(ws: Words, k: nat)
    requires |ws| == 8 && k < 8
    ensures Value(ws[..8 - (7 - k)]) == 0x1_0000 * Value(ws[..k]) + ws[k]
  {
    assert ws[..k + 1][..k] == ws[..k];
  }

  // ---------- the prefix texts ----------

  /** The characters of a plain address: lower-case hexadecimal digits, colons and dots. */
  predicate IsAddressText(t: string) {
    t != "" && forall i | 0 <= i < |t| :: IsDigit(t[i]) || 'a' <= t[i] <= 'f' || t[i] == ':' || t[i] == '.'
  }

  lemma PlainText(t: string)
    requires IsAddressText(t)
    ensures Bare(t) == t && Clean(t) == t && Text.Trim(t) == t
  {
    BarePlain(t);
    assert Text.Lower(t) == t;
    assert !Text.IsSpace(t[0]) && !Text.IsSpace(t[|t| - 1]);
    assert Text.TrimStart(t) == t && Text.TrimEnd(t) == t;
  }

  lemma HexOf(s: string)
    requires IsGroup(s)
    ensures |s| == 1 ==> Hexadecimal(s) == DigitValue(s[0])
    ensures |s| == 2 ==> Hexadecimal(s) == 16 * DigitValue(s[0]) + DigitValue(s[1])
    ensures |s| == 3 ==> Hexadecimal(s) == 256 * DigitValue(s[0]) + 16 * DigitValue(s[1]) + DigitValue(s[2])
    ensures |s| == 4 ==>
              Hexadecimal(s) == 4096 * DigitValue(s[0]) + 256 * DigitValue(s[1]) + 16 * DigitValue(s[2]) + DigitValue(s[3])
  {
    var s3 := s[..|s| - 1];
    if |s| >= 2 {
      var s2 := s3[..|s3| - 1];
      if |s| >= 3 {
        var s1 := s2[..|s2| - 1];
        assert |s| == 4 ==> s1[..0] == "";
        assert |s| == 3 ==> s1 == "";
      } else {
        assert s2 == "";
      }
    } else {
      assert s3 == "";
    }
  }

  lemma ElidedWords(t: string, left: seq<string>, right: seq<string>, ws: Words)
    requires IsGroups(left) && IsGroups(right) && |left| + |right| <= 7
    requires t == Join(left, ':') + "::" + Join(right, ':') && IsAddressText(t)
    requires ws == GroupValues(left) + ZeroWords(8 - |left| - |right|) + GroupValues(right)
    ensures ParseWords(t) == Some(ws)
  {
    PlainText(t);
    ElidedFormParses(t, left, right, ws);
  }

  lemma ThreeValues(g: string, h: string, k: string)
    requires IsGroup(g) && IsGroup(h) && IsGroup(k)
    ensures IsGroups([g, h, k]) && IsGroups([g, h]) && IsGroups([g])
    ensures GroupValues([g, h, k]) == [Hexadecimal(g), Hexadecimal(h), Hexadecimal(k)]
    ensures GroupValues([g, h]) == [Hexadecimal(g), Hexadecimal(h)] && GroupValues([g]) == [Hexadecimal(g)]
    ensures Hexadecimal(g) < 0x1_0000 && Hexadecimal(h) < 0x1_0000 && Hexadecimal(k) < 0x1_0000
  {
    GroupIsWord(g);
    GroupIsWord(h);
    GroupIsWord(k);
  }

  lemma ThreeJoined(g: string, h: string, k: string)
    ensures Join([g, h, k], ':') == g + ":" + h + ":" + k && Join([g, h], ':') == g + ":" + h && Join([g], ':') == g
  {
    assert [g, h, k][1..] == [h, k] && [h, k][1..] == [k] && [g, h][1..] == [h];
    assert Join([h, k], ':') == h + [':'] + k;
  }

  lemma ZeroTail(n: nat)
    requires n <= 8
    ensures ZeroWords(n) == [0, 0, 0, 0, 0, 0, 0, 0][..n]
  {
  }

  lemma NoGroupWords(t: string)
    requires t == "::"
    ensures ParseWords(t) == Some([0, 0, 0, 0, 0, 0, 0, 0])
  {
    ZeroTail(8);
    ElidedWords(t, [], [], [0, 0, 0, 0, 0, 0, 0, 0]);
  }

  lemma OneGroupFacts(t: string, g: string, v: nat)
    requires IsGroup(g) && v == Hexadecimal(g)
    requires t == g + "::"
    ensures IsGroups([g]) && t == Join([g], ':') + "::" + Join([], ':')
    ensures [v, 0, 0, 0, 0, 0, 0, 0] == GroupValues([g]) + ZeroWords(7) + GroupValues([])
  {
    ThreeValues(g, g, g);
    ThreeJoined(g, g, g);
    ZeroTail(7);
  }

  lemma OneGroupWords(t: string, g: string, v: nat)
    requires IsGroup(g) && v == Hexadecimal(g)
    requires t == g + "::" && IsAddressText(t)
    ensures ParseWords(t) == Some([v, 0, 0, 0, 0, 0, 0, 0])
  {
    OneGroupFacts(t, g, v);
    ElidedWords(t, [g], [], [v, 0, 0, 0, 0, 0, 0, 0]);
  }

  lemma TwoGroupFacts(t: string, g: string, h: string, v: nat, w: nat)
    requires IsGroup(g) && IsGroup(h) && v == Hexadecimal(g) && w == Hexadecimal(h)
    requires t == g + ":" + h + "::"
    ensures IsGroups([g, h]) && t == Join([g, h], ':') + "::" + Join([], ':')
    ensures [v, w, 0, 0, 0, 0, 0, 0] == GroupValues([g, h]) + ZeroWords(6) + GroupValues([])
  {
    ThreeValues(g, h, h);
    ThreeJoined(g, h, h);
    ZeroTail(6);
  }

  lemma TwoGroupWords(t: string, g: string, h: string, v: nat, w: nat)
    requires IsGroup(g) && IsGroup(h) && v == Hexadecimal(g) && w == Hexadecimal(h)
    requires t == g + ":" + h + "::" && IsAddressText(t)
    ensures ParseWords(t) == Some([v, w, 0, 0, 0, 0, 0, 0])
  {
    TwoGroupFacts(t, g, h, v, w);
    ElidedWords(t, [g, h], [], [v, w, 0, 0, 0, 0, 0, 0]);
  }

  lemma ThreeGroupFacts(t: string, g: string, h: string, k: string, v: nat, w: nat, x: nat)
    requires IsGroup(g) && IsGroup(h) && IsGroup(k) && v == Hexadecimal(g) && w == Hexadecimal(h) && x == Hexadecimal(k)
    requires t == g + ":" + h + ":" + k + "::"
    ensures IsGroups([g, h, k]) && t == Join([g, h, k], ':') + "::" + Join([], ':')
    ensures [v, w, x, 0, 0, 0, 0, 0] == GroupValues([g, h, k]) + ZeroWords(5) + GroupValues([])
  {
    ThreeValues(g, h, k);
    ThreeJoined(g, h, k);
    ZeroTail(5);
  }

  lemma ThreeGroupWords(t: string, g: string, h: string, k: string, v: nat, w: nat, x: nat)
    requires IsGroup(g) && IsGroup(h) && IsGroup(k) && v == Hexadecimal(g) && w == Hexadecimal(h) && x == Hexadecimal(k)
    requires t == g + ":" + h + ":" + k + "::" && IsAddressText(t)
    ensures ParseWords(t) == Some([v, w, x, 0, 0, 0, 0, 0])
  {
    ThreeGroupFacts(t, g, h, k, v, w, x);
    ElidedWords(t, [g, h, k], [], [v, w, x, 0, 0, 0, 0, 0]);
  }

  lemma LastGroupFacts(t: string, g: string, v: nat)
    requires IsGroup(g) && v == Hexadecimal(g)
    requires t == "::" + g
    ensures IsGroups([g]) && t == Join([], ':') + "::" + Join([g], ':')
    ensures [0, 0, 0, 0, 0, 0, 0, v] == GroupValues([]) + ZeroWords(7) + GroupValues([g])
  {
    ThreeValues(g, g, g);
    ThreeJoined(g, g, g);
    ZeroTail(7);
  }

  lemma LastGroupWords(t: string, g: string, v: nat)
    requires IsGroup(g) && v == Hexadecimal(g)
    requires t == "::" + g && IsAddressText(t)
    ensures ParseWords(t) == Some([0, 0, 0, 0, 0, 0, 0, v])
  {
    LastGroupFacts(t, g, v);
    ElidedWords(t, [], [g], [0, 0, 0, 0, 0, 0, 0, v]);
  }

  lemma LastThreeFacts(t: string, g: string, h: string, k: string, v: nat, w: nat, x: nat)
    requires IsGroup(g) && IsGroup(h) && IsGroup(k) && v == Hexadecimal(g) && w == Hexadecimal(h) && x == Hexadecimal(k)
    requires t == "::" + (g + ":" + h + ":" + k)
    ensures IsGroups([g, h, k]) && t == Join([], ':') + "::" + Join([g, h, k], ':')
    ensures [0, 0, 0, 0, 0, v, w, x] == GroupValues([]) + ZeroWords(5) + GroupValues([g, h, k])
  {
    ThreeValues(g, h, k);
    ThreeJoined(g, h, k);
    ZeroTail(5);
  }

  lemma LastThreeWords(t: string, g: string, h: string, k: string, v: nat, w: nat, x: nat)
    requires IsGroup(g) && IsGroup(h) && IsGroup(k) && v == Hexadecimal(g) && w == Hexadecimal(h) && x == Hexadecimal(k)
    requires t == "::" + (g + ":" + h + ":" + k) && IsAddressText(t)
    ensures ParseWords(t) == Some([0, 0, 0, 0, 0, v, w, x])
  {
    LastThreeFacts(t, g, h, k, v, w, x);
    ElidedWords(t, [], [g, h, k], [0, 0, 0, 0, 0, v, w, x]);
  }

  // ---------- the IPv6 table ----------

  // A prefix whose words and whose shape are known.
  lemma RangeHasShape(n: nat, range: Cidr, ps: Words, shape: bool)
    requires ParseWords(range.prefix) == Some(ps) && HasPrefix(n, Some(ps), range.length) == shape
    ensures InIpv6Range(n, range) == shape
  {
  }

  // ---------- each entry: its words ----------

  lemma LoopbackWords(t: string)
    requires t == "::1"
    ensures ParseWords(t) == Some([0, 0, 0, 0, 0, 0, 0, 1])
  {
    var g := "1";
    HexOf(g);
    LastGroupWords(t, g, 1);
  }

  lemma DiscardWords(t: string)
    requires t == "100::"
    ensures ParseWords(t) == Some([0x100, 0, 0, 0, 0, 0, 0, 0])
  {
    var g := "100";
    HexOf(g);
    OneGroupWords(t, g, 0x100);
  }

  lemma BenchmarkingWords(t: string)
    requires t == "2001:2::"
    ensures ParseWords(t) == Some([0x2001, 2, 0, 0, 0, 0, 0, 0])
  {
    var g, h := "2001", "2";
    HexOf(g);
    HexOf(h);
    TwoGroupWords(t, g, h, 0x2001, 2);
  }

  lemma DocumentationWords(t: string)
    requires t == "2001:db8::"
    ensures ParseWords(t) == Some([0x2001, 0xdb8, 0, 0, 0, 0, 0, 0])
  {
    var g, h := "2001", "db8";
    HexOf(g);
    HexOf(h);
    TwoGroupWords(t, g, h, 0x2001, 0xdb8);
  }

  lemma LocalTranslationWords(t: string)
    requires t == "64:ff9b:1::"
    ensures ParseWords(t) == Some([0x64, 0xff9b, 1, 0, 0, 0, 0, 0])
  {
    var g, h, k := "64", "ff9b", "1";
    HexOf(g);
    HexOf(h);
    HexOf(k);
    ThreeGroupWords(t, g, h, k, 0x64, 0xff9b, 1);
  }

  lemma MappedWords(t: string)
    requires t == "::ffff:0:0"
    ensures ParseWords(t) == Some([0, 0, 0, 0, 0, 0xffff, 0, 0])
  {
    var g, h, k := "ffff", "0", "0";
    HexOf(g);
    HexOf(h);
    HexOf(k);
    LastThreeWords(t, g, h, k, 0xffff, 0, 0);
  }

  lemma TranslationWords(t: string)
    requires t == "64:ff9b::"
    ensures ParseWords(t) == Some([0x64, 0xff9b, 0, 0, 0, 0, 0, 0])
  {
    var g, h := "64", "ff9b";
    HexOf(g);
    HexOf(h);
    TwoGroupWords(t, g, h, 0x64, 0xff9b);
  }

  lemma SixToFourWords(t: string)
    requires t == "2002::"
    ensures ParseWords(t) == Some([0x2002, 0, 0, 0, 0, 0, 0, 0])
  {
    var g := "2002";
    HexOf(g);
    OneGroupWords(t, g, 0x2002);
  }

  lemma OrchidWords(t: string)
    requires t == "2001:20::"
    ensures ParseWords(t) == Some([0x2001, 0x20, 0, 0, 0, 0, 0, 0])
  {
    var g, h := "2001", "20";
    HexOf(g);
    HexOf(h);
    TwoGroupWords(t, g, h, 0x2001, 0x20);
  }

  lemma UniqueLocalWords(t: string)
    requires t == "fc00::"
    ensures ParseWords(t) == Some([0xfc00, 0, 0, 0, 0, 0, 0, 0])
  {
    var g := "fc00";
    HexOf(g);
    OneGroupWords(t, g, 0xfc00);
  }

  lemma LinkLocalWords(t: string)
    requires t == "fe80::"
    ensures ParseWords(t) == Some([0xfe80, 0, 0, 0, 0, 0, 0, 0])
  {
    var g := "fe80";
    HexOf(g);
    OneGroupWords(t, g, 0xfe80);
  }

  lemma SiteLocalWords(t: string)
    requires t == "fec0::"
    ensures ParseWords(t) == Some([0xfec0, 0, 0, 0, 0, 0, 0, 0])
  {
    var g := "fec0";
    HexOf(g);
    OneGroupWords(t, g, 0xfec0);
  }

  lemma MulticastWords(t: string)
    requires t == "ff00::"
    ensures ParseWords(t) == Some([0xff00, 0, 0, 0, 0, 0, 0, 0])
  {
    var g := "ff00";
    HexOf(g);
    OneGroupWords(t, g, 0xff00);
  }

  // ---------- the tables as patterns ----------

  /** The first k words and the top of the next, above its low `bits` bits. */
  datatype Pattern = Pattern(words: Words, k: nat, bits: nat)

  /** The prefixes of the table, in its order. */
  const IPV6_PATTERNS: seq<Pattern> := [
    Pattern([0, 0, 0, 0, 0, 0, 0, 0], 7, 0),
    Pattern([0, 0, 0, 0, 0, 0, 0, 1], 7, 0),
    Pattern([0x100, 0, 0, 0, 0, 0, 0, 0], 3, 0),
    Pattern([0x2001, 2, 0, 0, 0, 0, 0, 0], 2, 0),
    Pattern([0x2001, 0xdb8, 0, 0, 0, 0, 0, 0], 1, 0),
    Pattern([0x2001, 0x20, 0, 0, 0, 0, 0, 0], 1, 4),
    Pattern([0x64, 0xff9b, 1, 0, 0, 0, 0, 0], 2, 0),
    Pattern([0xfc00, 0, 0, 0, 0, 0, 0, 0], 0, 9),
    Pattern([0xfe80, 0, 0, 0, 0, 0, 0, 0], 0, 6),
    Pattern([0xfec0, 0, 0, 0, 0, 0, 0, 0], 0, 6),
    Pattern([0xff00, 0, 0, 0, 0, 0, 0, 0], 0, 8)]

  predicate IsPattern(p: Pattern) {
    IsWords(p.words) && p.k < 8 && p.bits <= 16
  }

  predicate Matches(ws: Words, p: Pattern)
    requires IsWords(ws) && IsPattern(p)
  {
    SamePrefix(ws, p.words, p.k, p.bits)
  }

  /** The entry stands for the pattern: its text parses to the words, its length reaches as far. */
  predicate StandsFor(range: Cidr, p: Pattern) {
    ParseWords(range.prefix) == Some(p.words) && range.length == 16 * (p.k + 1) - p.bits
  }

  lemma PatternBlock(ws: Words, p: Pattern, length: nat)
    requires IsWords(ws) && IsPattern(p) && length == 16 * (p.k + 1) - p.bits
    ensures HasPrefix(Value(ws), Some(p.words), length) == Matches(ws, p)
  {
    PrefixOnWords(ws, p.words, p.k, p.bits);
  }

  lemma PatternRange(n: nat, ws: Words, range: Cidr, p: Pattern)
    requires IsWords(ws) && n == Value(ws) && IsPattern(p) && StandsFor(range, p)
    ensures InIpv6Range(n, range) == Matches(ws, p)
  {
    PatternBlock(ws, p, range.length);
    RangeHasShape(n, range, p.words, Matches(ws, p));
  }

  lemma EntryStands(i: nat, range: Cidr, p: Pattern)
    requires i < 11 && range == FORBIDDEN_IPV6_RANGES[i] && p == IPV6_PATTERNS[i]
    ensures StandsFor(range, p)
  {
    var t := range.prefix;
    match i
    case 0 => NoGroupWords(t);
    case 1 => LoopbackWords(t);
    case 2 => DiscardWords(t);
    case 3 => BenchmarkingWords(t);
    case 4 => DocumentationWords(t);
    case 5 => OrchidWords(t);
    case 6 => LocalTranslationWords(t);
    case 7 => UniqueLocalWords(t);
    case 8 => LinkLocalWords(t);
    case 9 => SiteLocalWords(t);
    case _ => MulticastWords(t);
  }

  /** The prefixes of the addresses that carry an IPv4 address: compatible, mapped, translated and 6to4. */
  const CARRIER_RANGES: seq<Cidr> := [COMPATIBLE, MAPPED, TRANSLATED, SIX_TO_FOUR]

  const CARRIER_PATTERNS: seq<Pattern> := [
    Pattern([0, 0, 0, 0, 0, 0, 0, 0], 5, 0),
    Pattern([0, 0, 0, 0, 0, 0xffff, 0, 0], 5, 0),
    Pattern([0x64, 0xff9b, 0, 0, 0, 0, 0, 0], 5, 0),
    Pattern([0x2002, 0, 0, 0, 0, 0, 0, 0], 0, 0)]

  lemma CarrierStands(i: nat, range: Cidr, p: Pattern)
    requires i < 4 && range == CARRIER_RANGES[i] && p == CARRIER_PATTERNS[i]
    ensures StandsFor(range, p)
  {
    var t := range.prefix;
    match i
    case 0 => NoGroupWords(t);
    case 1 => MappedWords(t);
    case 2 => TranslationWords(t);
    case _ => SixToFourWords(t);
  }

  // ---------- the patterns word by word ----------

  lemma SmallPowers()
    ensures Pow2(0) == 1 && Pow2(4) == 16 && Pow2(6) == 64 && Pow2(8) == 256 && Pow2(9) == 512
  {
    PowersOfTwo();
    Pow2Sum(4, 2);
    Pow2Sum(8, 1);
    assert Pow2(1) == 2 && Pow2(2) == 4;
  }

  // A pattern of whole words.
  lemma WholeWords(ws: Words, p: Pattern)
    requires IsWords(ws) && IsPattern(p) && p.bits == 0
    ensures Matches(ws, p) <==> forall i | 0 <= i <= p.k :: ws[i] == p.words[i]
  {
    SmallPowers();
    QuotientIs(ws[p.k], 1);
    QuotientIs(p.words[p.k], 1);
    if ws[..p.k] == p.words[..p.k] {
      assert forall i | 0 <= i < p.k :: ws[..p.k][i] == p.words[..p.k][i];
    }
  }

  // A pattern that ends inside its first or second word.
  lemma PartOfWord(ws: Words, p: Pattern)
    requires IsWords(ws) && IsPattern(p) && p.k <= 1
    ensures Pow2(p.bits) > 0
    ensures Matches(ws, p) <==> (p.k == 1 ==> ws[0] == p.words[0]) && ws[p.k] / Pow2(p.bits) == p.words[p.k] / Pow2(p.bits)
  {
    QuotientIs(ws[p.k], Pow2(p.bits));
    QuotientIs(p.words[p.k], Pow2(p.bits));
    assert ws[..0] == p.words[..0];
    assert ws[..1] == [ws[0]] && p.words[..1] == [p.words[0]];
  }
}
