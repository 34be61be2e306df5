/** What the table of forbidden IPv4 prefixes means in octets. */
module Ipv4Table {
  import opened Wrappers
  import opened Bits
  import opened Strings
  import opened IpText
  import opened IpAddress
  import opened IpParsing
  import Text

  // ---------- dotted texts ----------

  lemma FourJoined(t: string, a: string, b: string, c: string, d: string)
    requires t == a + "." + b + "." + c + "." + d
    ensures Join([a, b, c, d], '.') == t
  {
    assert [a, b, c, d][1..] == [b, c, d] && [b, c, d][1..] == [c, d] && [c, d][1..] == [d];
    assert Join([c, d], '.') == c + "." + d;
    assert Join([b, c, d], '.') == b + "." + Join([c, d], '.');
  }

  lemma OctetHasNoDot(p: string)
    requires IsOctet(p)
    ensures '.' !in p
  {
  }

  function QuadOf(parts: seq<string>): nat
    requires |parts| == 4 && forall i | 0 <= i < 4 :: IsOctet(parts[i])
  {
    assert IsOctet(parts[0]) && IsOctet(parts[1]) && IsOctet(parts[2]) && IsOctet(parts[3]);
    Quad(Decimal(parts[0]), Decimal(parts[1]), Decimal(parts[2]), Decimal(parts[3]))
  }

  lemma QuadOfParts(t: string, parts: seq<string>)
    requires Text.Trim(t) == t && Split(t, '.') == parts && |parts| == 4
    requires IsOctet(parts[0]) && IsOctet(parts[1]) && IsOctet(parts[2]) && IsOctet(parts[3])
    ensures Ipv4Number(t) == Some(Quad(Decimal(parts[0]), Decimal(parts[1]), Decimal(parts[2]), Decimal(parts[3])))
  {
  }

  lemma NothingToTrim(t: string)
    requires t != "" && forall i | 0 <= i < |t| :: IsDigit(t[i]) || t[i] == '.'
    ensures Text.Trim(t) == t
  {
    assert !Text.IsSpace(t[0]) && !Text.IsSpace(t[|t| - 1]);
    assert Text.TrimStart(t) == t && Text.TrimEnd(t) == t;
  }

  /** Four octet texts joined by dots parse to their number. */
  lemma QuadParses(parts: seq<string>)
    requires |parts| == 4 && forall i | 0 <= i < 4 :: IsOctet(parts[i])
    ensures Ipv4Number(Join(parts, '.')) == Some(QuadOf(parts))
  {
    var t := Join(parts, '.');
    JoinedChars(parts, '.');
    NothingToTrim(t);
    forall p | p in parts ensures '.' !in p {
      OctetHasNoDot(p);
    }
    SplitJoin(parts, '.');
    QuadOfParts(t, parts);
  }

  function Digit(n: nat): char
    requires n < 10
  {
    '0' + n as char
  }

  /** The decimal text of an octet. */
  function OctetText(n: nat): string
    requires n <= 255
  {
    if n < 10 then [Digit(n)]
    else if n < 100 then [Digit(n / 10), Digit(n % 10)]
    else [Digit(n / 100), Digit(n / 10 % 10), Digit(n % 10)]
  }

  lemma OctetParses(n: nat)
    requires n <= 255
    ensures IsOctet(OctetText(n)) && Decimal(OctetText(n)) == n
  {
    OctetDigits(n);
    OctetValue(n);
  }

  lemma OctetValue(n: nat)
    requires n <= 255
    ensures Decimal(OctetText(n)) == n
  {
    if n < 10 {
      OneDigit(n);
    } else if n < 100 {
      TwoDigits(n / 10, n % 10);
    } else {
      var k, m, l := n / 100, n / 10 % 10, n % 10;
      assert n == 100 * k + 10 * m + l;
      ThreeDigits(k, m, l);
    }
  }

  lemma OctetDigits(n: nat)
    requires n <= 255
    ensures AllDigits(OctetText(n)) && !(|OctetText(n)| > 1 && OctetText(n)[0] == '0')
  {
  }

  lemma OneDigit(n: nat)
    requires n < 10
    ensures Decimal([Digit(n)]) == n
  {
    assert [Digit(n)][..0] == "";
  }

  lemma TwoDigits(m: nat, n: nat)
    requires m < 10 && n < 10
    ensures Decimal([Digit(m), Digit(n)]) == 10 * m + n
  {
    OneDigit(m);
    assert [Digit(m), Digit(n)][..1] == [Digit(m)];
  }

  lemma ThreeDigits(k: nat, m: nat, n: nat)
    requires k < 10 && m < 10 && n < 10
    ensures Decimal([Digit(k), Digit(m), Digit(n)]) == 100 * k + 10 * m + n
  {
    TwoDigits(k, m);
    assert [Digit(k), Digit(m), Digit(n)][..2] == [Digit(k), Digit(m)];
  }

  function Dotted(a: nat, b: nat, c: nat, d: nat): string
    requires a <= 255 && b <= 255 && c <= 255 && d <= 255
  {
    OctetText(a) + "." + OctetText(b) + "." + OctetText(c) + "." + OctetText(d)
  }

  /** Every dotted quad of octets parses to its number. */
  lemma DottedParses(t: string, a: nat, b: nat, c: nat, d: nat)
    requires a <= 255 && b <= 255 && c <= 255 && d <= 255 && t == Dotted(a, b, c, d)
    ensures Ipv4Number(t) == Some(Quad(a, b, c, d))
  {
    OctetParses(a);
    OctetParses(b);
    OctetParses(c);
    OctetParses(d);
    FourJoined(t, OctetText(a), OctetText(b), OctetText(c), OctetText(d));
    QuadParses([OctetText(a), OctetText(b), OctetText(c), OctetText(d)]);
  }

  // ---------- the table as intervals ----------

  /** `size` addresses from a.b.c.d on. */
  datatype Block = Block(a: nat, b: nat, c: nat, d: nat, size: nat) {
    predicate IsQuad() {
      a <= 255 && b <= 255 && c <= 255 && d <= 255
    }

    predicate Has(n: nat) {
      Quad(a, b, c, d) <= n < Quad(a, b, c, d) + size
    }
  }

  /** The entries of the table, in its order. */
  function BlockOf(i: nat): Block
    requires i < 16
  {
    match i
    case 0 => Block(0, 0, 0, 0, 0x100_0000)
    case 1 => Block(10, 0, 0, 0, 0x100_0000)
    case 2 => Block(100, 64, 0, 0, 0x40_0000)
    case 3 => Block(127, 0, 0, 0, 0x100_0000)
    case 4 => Block(169, 254, 0, 0, 0x1_0000)
    case 5 => Block(172, 16, 0, 0, 0x10_0000)
    case 6 => Block(192, 0, 0, 0, 0x100)
    case 7 => Block(192, 0, 2, 0, 0x100)
    case 8 => Block(192, 88, 99, 0, 0x100)
    case 9 => Block(192, 168, 0, 0, 0x1_0000)
    case 10 => Block(198, 18, 0, 0, 0x2_0000)
    case 11 => Block(198, 51, 100, 0, 0x100)
    case 12 => Block(203, 0, 113, 0, 0x100)
    case 13 => Block(224, 0, 0, 0, 0x1000_0000)
    case 14 => Block(240, 0, 0, 0, 0x1000_0000)
    case _ => Block(255, 255, 255, 255, 1)
  }

  /** The block sizes in use. */
  predicate IsSize(bits: nat, size: nat) {
    || (bits == 0 && size == 1) || (bits == 8 && size == 0x100) || (bits == 16 && size == 0x1_0000)
    || (bits == 17 && size == 0x2_0000) || (bits == 20 && size == 0x10_0000) || (bits == 22 && size == 0x40_0000)
    || (bits == 24 && size == 0x100_0000) || (bits == 28 && size == 0x1000_0000)
  }

  lemma SizeIsPower(bits: nat, size: nat)
    requires IsSize(bits, size)
    ensures Pow2(bits) == size
  {
    PowersOfTwo();
    Pow2Sum(16, 1);
    Pow2Sum(16, 4);
    Pow2Sum(20, 2);
    Pow2Sum(24, 4);
    assert Pow2(0) == 1 && Pow2(1) == 2 && Pow2(2) == 4;
  }

  // ---------- the entries ----------

  lemma Texts0(t: string)
    ensures t == "0.0.0.0" ==> t == Dotted(0, 0, 0, 0)
    ensures t == "10.0.0.0" ==> t == Dotted(10, 0, 0, 0)
  {
  }

  lemma Texts2(t: string)
    ensures t == "100.64.0.0" ==> t == Dotted(100, 64, 0, 0)
    ensures t == "127.0.0.0" ==> t == Dotted(127, 0, 0, 0)
  {
  }

  lemma Texts4(t: string)
    ensures t == "169.254.0.0" ==> t == Dotted(169, 254, 0, 0)
    ensures t == "172.16.0.0" ==> t == Dotted(172, 16, 0, 0)
  {
  }

  lemma Texts6(t: string)
    ensures t == "192.0.0.0" ==> t == Dotted(192, 0, 0, 0)
    ensures t == "192.0.2.0" ==> t == Dotted(192, 0, 2, 0)
  {
  }

  lemma Texts8(t: string)
    ensures t == "192.88.99.0" ==> t == Dotted(192, 88, 99, 0)
    ensures t == "192.168.0.0" ==> t == Dotted(192, 168, 0, 0)
  {
  }

  lemma Texts10(t: string)
    ensures t == "198.18.0.0" ==> t == Dotted(198, 18, 0, 0)
    ensures t == "198.51.100.0" ==> t == Dotted(198, 51, 100, 0)
  {
  }

  lemma Texts12(t: string)
    ensures t == "203.0.113.0" ==> t == Dotted(203, 0, 113, 0)
    ensures t == "224.0.0.0" ==> t == Dotted(224, 0, 0, 0)
  {
  }

  lemma Texts14(t: string)
    ensures t == "240.0.0.0" ==> t == Dotted(240, 0, 0, 0)
    ensures t == "255.255.255.255" ==> t == Dotted(255, 255, 255, 255)
  {
  }

  // The entry's text is that of its block.
  lemma EntryText(i: nat, range: Cidr)
    requires i < 16 && range == FORBIDDEN_IPV4_RANGES[i]
    ensures var v := BlockOf(i); v.IsQuad() && range.prefix == Dotted(v.a, v.b, v.c, v.d)
  {
    var t := range.prefix;
    match i / 2
    case 0 => Texts0(t);
    case 1 => Texts2(t);
    case 2 => Texts4(t);
    case 3 => Texts6(t);
    case 4 => Texts8(t);
    case 5 => Texts10(t);
    case 6 => Texts12(t);
    case _ => Texts14(t);
  }

  lemma EntrySize(i: nat, range: Cidr)
    requires i < 16 && range == FORBIDDEN_IPV4_RANGES[i]
    ensures 1 <= range.length <= 32 && IsSize(32 - range.length, BlockOf(i).size)
  {
  }

  lemma Aligned(a: nat, b: nat, c: nat, d: nat, size: nat)
    requires || size == 1 || (size == 0x100 && d == 0) || (size == 0x1_0000 && c == 0 && d == 0)
             || (size == 0x2_0000 && b % 2 == 0 && c == 0 && d == 0)
             || (size == 0x10_0000 && b % 16 == 0 && c == 0 && d == 0)
             || (size == 0x40_0000 && b % 64 == 0 && c == 0 && d == 0)
             || (size == 0x100_0000 && b == 0 && c == 0 && d == 0)
             || (size == 0x1000_0000 && a % 16 == 0 && b == 0 && c == 0 && d == 0)
    ensures Modulo(Quad(a, b, c, d), size) == 0
  {
    var q := match size
      case 1 => Quad(a, b, c, d)
      case 0x100 => 0x1_0000 * a + 0x100 * b + c
      case 0x1_0000 => 0x100 * a + b
      case 0x2_0000 => 0x80 * a + b / 2
      case 0x10_0000 => 0x10 * a + b / 16
      case 0x40_0000 => 4 * a + b / 64
      case 0x100_0000 => a
      case _ => a / 16;
    RemainderIs(Quad(a, b, c, d), size, q, 0);
  }

  lemma BlockAligned(i: nat, v: Block)
    requires i < 16 && v == BlockOf(i)
    ensures v.size > 0 && Modulo(Quad(v.a, v.b, v.c, v.d), v.size) == 0
  {
    match i
    case 0 => Aligned(0, 0, 0, 0, 0x100_0000);
    case 1 => Aligned(10, 0, 0, 0, 0x100_0000);
    case 2 => Aligned(100, 64, 0, 0, 0x40_0000);
    case 3 => Aligned(127, 0, 0, 0, 0x100_0000);
    case 4 => Aligned(169, 254, 0, 0, 0x1_0000);
    case 5 => Aligned(172, 16, 0, 0, 0x10_0000);
    case 6 => Aligned(192, 0, 0, 0, 0x100);
    case 7 => Aligned(192, 0, 2, 0, 0x100);
    case 8 => Aligned(192, 88, 99, 0, 0x100);
    case 9 => Aligned(192, 168, 0, 0, 0x1_0000);
    case 10 => Aligned(198, 18, 0, 0, 0x2_0000);
    case 11 => Aligned(198, 51, 100, 0, 0x100);
    case 12 => Aligned(203, 0, 113, 0, 0x100);
    case 13 => Aligned(224, 0, 0, 0, 0x1000_0000);
    case 14 => Aligned(240, 0, 0, 0, 0x1000_0000);
    case _ => Aligned(255, 255, 255, 255, 1);
  }

  lemma AlignedInterval(n: nat, base: nat, bits: nat, size: nat)
    requires IsSize(bits, size) && Modulo(base, size) == 0
    ensures InBlock(n, base, bits) <==> base <= n < base + size
  {
    SizeIsPower(bits, size);
    BlockIsInterval(n, base, bits);
  }

  lemma EntryBlock(n: nat, i: nat, range: Cidr)
    requires i < 16 && range == FORBIDDEN_IPV4_RANGES[i]
    ensures InIpv4Range(n, range) == BlockOf(i).Has(n)
  {
    var v := BlockOf(i);
    EntryText(i, range);
    EntrySize(i, range);
    BlockAligned(i, v);
    RangeIsBlock(n, range, v);
  }

  lemma RangeIsBlock(n: nat, range: Cidr, v: Block)
    requires v.IsQuad() && range.prefix == Dotted(v.a, v.b, v.c, v.d)
    requires 1 <= range.length <= 32 && IsSize(32 - range.length, v.size) && Modulo(Quad(v.a, v.b, v.c, v.d), v.size) == 0
    ensures InIpv4Range(n, range) == v.Has(n)
  {
    DottedParses(range.prefix, v.a, v.b, v.c, v.d);
    AlignedInterval(n, Quad(v.a, v.b, v.c, v.d), 32 - range.length, v.size);
  }

  // ---------- the table in octets ----------

  lemma {:induction false} AnyIndexed(n: nat, ranges: seq<Cidr>)
    ensures InAnyIpv4(n, ranges) <==> exists i | 0 <= i < |ranges| :: InIpv4Range(n, ranges[i])
  {
    if ranges != [] {
      AnyIndexed(n, ranges[1..]);
      assert forall i | 0 <= i < |ranges| - 1 :: ranges[1..][i] == ranges[i + 1];
    }
  }

  ghost predicate InSomeBlock(n: nat) {
    exists i: nat | i < 16 :: BlockOf(i).Has(n)
  }

  lemma TableIsBlocks(n: nat, ranges: seq<Cidr>)
    requires ranges == FORBIDDEN_IPV4_RANGES
    ensures InAnyIpv4(n, ranges) <==> InSomeBlock(n)
  {
    forall i: nat | i < 16
      ensures InIpv4Range(n, ranges[i]) == BlockOf(i).Has(n)
    {
      EntryBlock(n, i, ranges[i]);
    }
    SameHits(n, ranges);
  }

  lemma SameHits(n: nat, ranges: seq<Cidr>)
    requires |ranges| == 16 && forall i: nat | i < 16 :: InIpv4Range(n, ranges[i]) == BlockOf(i).Has(n)
    ensures InAnyIpv4(n, ranges) <==> InSomeBlock(n)
  {
    AnyIndexed(n, ranges);
  }

  /** The special-purpose IPv4 addresses, octet by octet. */
  predicate IsSpecialQuad(a: nat, b: nat, c: nat) {
    || a in {0, 10, 127} || a >= 224
    || (a == 100 && 64 <= b <= 127)
    || (a == 169 && b == 254)
    || (a == 172 && 16 <= b <= 31)
    || (a == 192 && (b == 168 || (b == 0 && (c == 0 || c == 2)) || (b == 88 && c == 99)))
    || (a == 198 && (18 <= b <= 19 || (b == 51 && c == 100)))
    || (a == 203 && b == 0 && c == 113)
  }

  lemma BlocksAreSpecial(a: nat, b: nat, c: nat, d: nat, i: nat)
    requires a <= 255 && b <= 255 && c <= 255 && d <= 255 && i < 16 && BlockOf(i).Has(Quad(a, b, c, d))
    ensures IsSpecialQuad(a, b, c)
  {
  }

  lemma LowSpecial(a: nat, b: nat, c: nat, d: nat) returns (i: nat)
    requires a < 192 && b <= 255 && c <= 255 && d <= 255 && IsSpecialQuad(a, b, c)
    ensures i < 16 && BlockOf(i).Has(Quad(a, b, c, d))
  {
    if a == 0 {
      i := 0;
    } else if a == 10 {
      i := 1;
    } else if a == 100 {
      i := 2;
    } else if a == 127 {
      i := 3;
    } else if a == 169 {
      i := 4;
    } else {
      i := 5;
    }
  }

  lemma MiddleSpecial(b: nat, c: nat, d: nat) returns (i: nat)
    requires b <= 255 && c <= 255 && d <= 255 && IsSpecialQuad(192, b, c)
    ensures i < 16 && BlockOf(i).Has(Quad(192, b, c, d))
  {
    if b == 168 {
      i := 9;
    } else if b == 88 {
      i := 8;
    } else if c == 0 {
      i := 6;
    } else {
      i := 7;
    }
  }

  lemma HighSpecial(a: nat, b: nat, c: nat, d: nat) returns (i: nat)
    requires 192 < a <= 255 && b <= 255 && c <= 255 && d <= 255 && IsSpecialQuad(a, b, c)
    ensures i < 16 && BlockOf(i).Has(Quad(a, b, c, d))
  {
    if a == 198 && b < 51 {
      i := 10;
    } else if a == 198 {
      i := 11;
    } else if a == 203 {
      i := 12;
    } else if a < 240 {
      i := 13;
    } else {
      i := 14;
    }
  }

  lemma SpecialIsInBlock(a: nat, b: nat, c: nat, d: nat) returns (i: nat)
    requires a <= 255 && b <= 255 && c <= 255 && d <= 255 && IsSpecialQuad(a, b, c)
    ensures i < 16 && BlockOf(i).Has(Quad(a, b, c, d))
  {
    if a < 192 {
      i := LowSpecial(a, b, c, d);
    } else if a == 192 {
      i := MiddleSpecial(b, c, d);
    } else {
      i := HighSpecial(a, b, c, d);
    }
  }

  /** The table of IPv4 prefixes, read through parser and masks, forbids exactly the special addresses. */
  lemma Ipv4TableMeaning(a: nat, b: nat, c: nat, d: nat)
    requires a <= 255 && b <= 255 && c <= 255 && d <= 255
    ensures ForbiddenIpv4(Quad(a, b, c, d)) <==> IsSpecialQuad(a, b, c)
  {
    var n := Quad(a, b, c, d);
    TableIsBlocks(n, FORBIDDEN_IPV4_RANGES);
    if IsSpecialQuad(a, b, c) {
      var i := SpecialIsInBlock(a, b, c, d);
    } else if InSomeBlock(n) {
      var i: nat :| i < 16 && BlockOf(i).Has(n);
      BlocksAreSpecial(a, b, c, d, i);
    }
  }

  /** 0.0.0.0/8 is forbidden, so that `::` and `::1` agree with the IPv4 addresses they carry. */
  lemma ThisNetworkForbidden(n: nat)
    requires n < 0x100_0000
    ensures ForbiddenIpv4(n)
  {
    var b, c, d := n / 0x1_0000, n / 0x100 % 0x100, n % 0x100;
    assert n == Quad(0, b, c, d);
    Ipv4TableMeaning(0, b, c, d);
  }
}
