/** The address classifier: parsing loops and prefix tests, each proved equal to its meaning. */
module IpAddress {
  import opened Wrappers
  import opened Bits
  import opened Strings
  import opened IpText
  import Text

  datatype Cidr = Cidr(prefix: string, length: nat)

  const FORBIDDEN_IPV4_RANGES: seq<Cidr> := [
    Cidr("0.0.0.0", 8),
    Cidr("10.0.0.0", 8),
    Cidr("100.64.0.0", 10),
    Cidr("127.0.0.0", 8),
    Cidr("169.254.0.0", 16),
    Cidr("172.16.0.0", 12),
    Cidr("192.0.0.0", 24),
    Cidr("192.0.2.0", 24),
    Cidr("192.88.99.0", 24),
    Cidr("192.168.0.0", 16),
    Cidr("198.18.0.0", 15),
    Cidr("198.51.100.0", 24),
    Cidr("203.0.113.0", 24),
    Cidr("224.0.0.0", 4),
    Cidr("240.0.0.0", 4),
    Cidr("255.255.255.255", 32)]

  const FORBIDDEN_IPV6_RANGES: seq<Cidr> := [
    Cidr("::", 128),
    Cidr("::1", 128),
    Cidr("100::", 64),
    Cidr("2001:2::", 48),
    Cidr("2001:db8::", 32),
    Cidr("2001:20::", 28),
    Cidr("64:ff9b:1::", 48),
    Cidr("fc00::", 7),
    Cidr("fe80::", 10),
    Cidr("fec0::", 10),
    Cidr("ff00::", 8)]

  // ---------- meaning ----------

  /** n and base agree above the low `bits` bits. */
  predicate InBlock(n: nat, base: nat, bits: nat) {
    ShiftRight(n, bits) == ShiftRight(base, bits)
  }

  /** That is, n lies in the aligned block of 2^bits numbers around base. */
  lemma BlockIsInterval(n: nat, base: nat, bits: nat)
    ensures InBlock(n, base, bits)
            <==> base - Modulo(base, Pow2(bits)) <= n < base - Modulo(base, Pow2(bits)) + Pow2(bits)
  {
    QuotientIs(n, Pow2(bits));
    QuotientIs(base, Pow2(bits));
    SameBlock(n, base, Pow2(bits));
  }

  predicate InIpv4Range(n: nat, range: Cidr) {
    1 <= range.length <= 32 && Ipv4Number(range.prefix).Some?
    && InBlock(n, Ipv4Number(range.prefix).value, 32 - range.length)
  }

  predicate InAnyIpv4(n: nat, ranges: seq<Cidr>) {
    ranges != [] && (InIpv4Range(n, ranges[0]) || InAnyIpv4(n, ranges[1..]))
  }

  predicate ForbiddenIpv4(n: nat) {
    InAnyIpv4(n, FORBIDDEN_IPV4_RANGES)
  }

  predicate HasPrefix(n: nat, prefix: Option<Words>, length: nat) {
    prefix.Some? && length <= 128 && InBlock(n, Value(prefix.value), 128 - length)
  }

  predicate InIpv6Range(n: nat, range: Cidr) {
    HasPrefix(n, ParseWords(range.prefix), range.length)
  }

  function RangesHit(n: nat, ranges: seq<Cidr>): seq<bool> {
    seq(|ranges|, i requires 0 <= i < |ranges| => InIpv6Range(n, ranges[i]))
  }

  predicate ForbiddenIpv6(n: nat) {
    true in RangesHit(n, FORBIDDEN_IPV6_RANGES)
  }

  const COMPATIBLE := Cidr("::", 96)
  const MAPPED := Cidr("::ffff:0:0", 96)
  const TRANSLATED := Cidr("64:ff9b::", 96)
  const SIX_TO_FOUR := Cidr("2002::", 16)

  function Embed(n: nat, compatible: bool, mapped: bool, translated: bool, sixToFour: bool): Option<nat> {
    if compatible then Some(n % 0x1_0000_0000)
    else if mapped then Some(n % 0x1_0000_0000)
    else if translated then Some(n % 0x1_0000_0000)
    else if sixToFour then Some(ShiftRight(n, 80) % 0x1_0000_0000)
    else None
  }

  /** The IPv4 address inside an IPv4-compatible, IPv4-mapped, translated or 6to4 address. */
  function EmbeddedIpv4(n: nat): Option<nat> {
    Embed(n, InIpv6Range(n, COMPATIBLE), InIpv6Range(n, MAPPED), InIpv6Range(n, TRANSLATED), InIpv6Range(n, SIX_TO_FOUR))
  }

  /** The verdict on a 128-bit address. */
  predicate ForbiddenValue(n: nat) {
    ForbiddenIpv6(n) || (EmbeddedIpv4(n).Some? && ForbiddenIpv4(EmbeddedIpv4(n).value))
  }

  predicate Forbidden(ip: string) {
    if Text.Trim(ip) == "" then true
    else
      var clean := Text.Trim(Bare(ip));
      match Ipv4Number(clean)
      case Some(n) => ForbiddenIpv4(n)
      case None =>
        match ParseWords(clean)
        case None => true
        case Some(ws) => ForbiddenValue(Value(ws))
  }

  // ---------- loops and masks ----------

  method IpV4ToNumber(ip: string) returns (r: Option<nat>)
    ensures r == Ipv4Number(ip)
  {
    var parts := Split(Text.Trim(ip), '.');
    if |parts| != 4 {
      return None;
    }
    var nums := [];
    for i := 0 to 4
      invariant |nums| == i
      invariant forall k | 0 <= k < i :: IsOctet(parts[k]) && nums[k] == Decimal(parts[k])
    {
      var part := parts[i];
      if !AllDigits(part) {
        return None;
      }
      var n := Decimal(part);
      if n > 255 {
        return None;
      }
      if |part| > 1 && part[0] == '0' {
        return None;
      }
      nums := nums + [n];
    }
    QuadNumber(ip, parts, nums);
    var number := FromOctets(nums[0], nums[1], nums[2], nums[3]);
    return Some(number);
  }

  method FromOctets(a: nat, b: nat, c: nat, d: nat) returns (n: nat)
    requires a <= 255 && b <= 255 && c <= 255 && d <= 255
    ensures n == Quad(a, b, c, d)
  {
    Assembled(a, b, c, d);
    return ShiftLeft(a, 24) + Or(Or(ShiftLeft(b, 16), ShiftLeft(c, 8)), d);
  }

  lemma QuadNumber(ip: string, parts: seq<string>, nums: seq<nat>)
    requires Split(Text.Trim(ip), '.') == parts && |parts| == |nums| == 4
    requires forall k | 0 <= k < 4 :: IsOctet(parts[k]) && nums[k] == Decimal(parts[k])
    ensures Ipv4Number(ip) == Some(Quad(nums[0], nums[1], nums[2], nums[3]))
  {
  }

  // Shifting and or-ing octets together adds them up.
  lemma Assembled(a: nat, b: nat, c: nat, d: nat)
    requires a <= 255 && b <= 255 && c <= 255 && d <= 255
    ensures ShiftLeft(a, 24) + Or(Or(ShiftLeft(b, 16), ShiftLeft(c, 8)), d) == Quad(a, b, c, d)
  {
    PowersOfTwo();
    OrIntoLow(b, 0x100 * c, 16);
    var low := Or(ShiftLeft(b, 16), ShiftLeft(c, 8));
    assert low == 0x1_0000 * b + 0x100 * c == (0x100 * b + c) * Pow2(8);
    OrIntoLow(0x100 * b + c, d, 8);
    assert Or(low, d) == low + d;
  }

  method IsForbiddenIpv4(ipNum: nat) returns (r: bool)
    requires ipNum < 0x1_0000_0000
    ensures r == ForbiddenIpv4(ipNum)
  {
    r := AnyIpv4Range(ipNum, FORBIDDEN_IPV4_RANGES);
  }

  method AnyIpv4Range(ipNum: nat, ranges: seq<Cidr>) returns (r: bool)
    requires ipNum < 0x1_0000_0000 && forall i | 0 <= i < |ranges| :: 1 <= ranges[i].length <= 32
    ensures r == InAnyIpv4(ipNum, ranges)
  {
    for i := 0 to |ranges|
      invariant InAnyIpv4(ipNum, ranges) == InAnyIpv4(ipNum, ranges[i..])
    {
      var range := ranges[i];
      NextRange(ipNum, ranges, i);
      var prefixNum := IpV4ToNumber(range.prefix);
      if prefixNum.Some? {
        var mask := ShiftLeft32(AllOnes(32), 32 - range.length);
        MaskTest(ipNum, prefixNum.value, 32 - range.length);
        if And(ipNum, mask) == And(prefixNum.value, mask) {
          return true;
        }
      }
    }
    return false;
  }

  lemma NextRange(n: nat, ranges: seq<Cidr>, i: nat)
    requires i < |ranges|
    ensures InAnyIpv4(n, ranges[i..]) <==> InIpv4Range(n, ranges[i]) || InAnyIpv4(n, ranges[i + 1..])
  {
    assert ranges[i..][0] == ranges[i] && ranges[i..][1..] == ranges[i + 1..];
  }

  /** The mask test is membership in an interval. */
  lemma MaskTest(n: nat, p: nat, bits: nat)
    requires n < 0x1_0000_0000 && p < 0x1_0000_0000 && bits < 32
    ensures var mask := ShiftLeft32(AllOnes(32), bits);
            And(n, mask) == And(p, mask) <==> InBlock(n, p, bits)
  {
    PowersOfTwo();
    NetMask(bits);
    AndHighOnes(n, bits, 32);
    AndHighOnes(p, bits, 32);
    SameBlock(n, p, Pow2(bits));
    BlockIsInterval(n, p, bits);
  }

  method ParseIpv6(ip: string) returns (r: Option<(Words, nat)>)
    ensures r.Some? <==> ParseWords(ip).Some?
    ensures r.Some? ==> r.value.0 == ParseWords(ip).value && r.value.1 == Value(r.value.0)
  {
    var clean := Clean(ip);
    if !ColonsOk(clean) {
      return None;
    }
    var embedded := EmbedQuad(clean);
    if embedded.None? {
      return None;
    }
    var groups := Groups(embedded.value);
    if groups.None? {
      return None;
    }
    var words := ReadWords(groups.value);
    if words.None? {
      return None;
    }
    WordsFit(groups.value);
    var big := Assemble(words.value);
    return Some((words.value, big));
  }

  method ReadWords(groups: seq<string>) returns (r: Option<Words>)
    ensures r == WordsOf(groups)
  {
    if |groups| != 8 {
      return None;
    }
    var words: seq<nat> := [];
    for i := 0 to 8
      invariant |words| == i
      invariant forall k | 0 <= k < i :: IsGroup(groups[k]) && words[k] == Hexadecimal(groups[k])
    {
      if !IsGroup(groups[i]) {
        return None;
      }
      words := words + [Hexadecimal(groups[i])];
    }
    assert words == GroupValues(groups);
    return Some(words);
  }

  lemma WordsFit(groups: seq<string>)
    requires WordsOf(groups).Some?
    ensures IsWords(WordsOf(groups).value)
  {
    forall i | 0 <= i < 8 ensures WordsOf(groups).value[i] < 0x1_0000 {
      GroupIsWord(groups[i]);
    }
  }

  /** `(bigInt << 16) | w` over the words. */
  method Assemble(words: seq<nat>) returns (big: nat)
    requires forall i | 0 <= i < |words| :: words[i] < 0x1_0000
    ensures big == Value(words)
  {
    big := 0;
    for i := 0 to |words|
      invariant big == Value(words[..i])
    {
      assert words[..i + 1][..i] == words[..i];
      OneWordMore(big, words[i]);
      big := Or(ShiftLeft(big, 16), words[i]);
    }
    assert words[..|words|] == words;
  }

  lemma OneWordMore(big: nat, w: nat)
    requires w < 0x1_0000
    ensures Or(ShiftLeft(big, 16), w) == 0x1_0000 * big + w
  {
    PowersOfTwo();
    OrIntoLow(big, w, 16);
  }

  lemma GroupIsWord(g: string)
    requires IsGroup(g)
    ensures Hexadecimal(g) < 0x1_0000
  {
    HexBound(g);
    PowersGrow(4 * |g|, 16);
    PowersOfTwo();
  }

  lemma {:induction false} HexBound(g: string)
    requires forall i | 0 <= i < |g| :: IsHexDigit(g[i])
    ensures Hexadecimal(g) < Pow2(4 * |g|)
  {
    if g != "" {
      var init := g[..|g| - 1];
      HexBound(init);
      Pow2Sum(4, 4 * |init|);
      PowersOfTwo();
      var h, p := Hexadecimal(init), Pow2(4 * |init|);
      assert Hexadecimal(g) <= 16 * h + 15 < 16 * p;
    }
  }

  lemma ShiftTest(n: nat, parsed: Option<Words>, words: Words, big: nat, length: nat, shift: nat)
    requires parsed == Some(words) && big == Value(words) && length <= 128 && shift == 128 - length
    ensures HasPrefix(n, parsed, length) == (ShiftRight(n, shift) == ShiftRight(big, shift))
  {
  }

  method MatchesIpv6Prefix(ip128: nat, prefix: string, length: nat) returns (r: bool)
    requires length <= 128
    ensures r == HasPrefix(ip128, ParseWords(prefix), length)
  {
    var parsed := ParseIpv6(prefix);
    if parsed.None? {
      return false;
    }
    var (words, big) := parsed.value;
    var shift := 128 - length;
    ShiftTest(ip128, ParseWords(prefix), words, big, length, shift);
    return ShiftRight(ip128, shift) == ShiftRight(big, shift);
  }

  method IsPrivateOrSpecialIp(ip: string) returns (r: bool)
    ensures r == Forbidden(ip)
  {
    if Text.Trim(ip) == "" {
      return true;
    }
    var clean := Text.Trim(Bare(ip));
    var v4Num := IpV4ToNumber(clean);
    if v4Num.Some? {
      r := IsForbiddenIpv4(v4Num.value);
      return;
    }
    var parsed6 := ParseIpv6(clean);
    if parsed6.None? {
      return true;
    }
    r := ClassifyValue(parsed6.value.1);
  }

  predicate EntryHit(n: nat, range: Cidr, hit: bool) {
    range.length <= 128 && hit == InIpv6Range(n, range)
  }

  ghost predicate AreHits(n: nat, ranges: seq<Cidr>, hits: seq<bool>) {
    && |hits| == |ranges|
    && forall i {:trigger EntryHit(n, ranges[i], hits[i])} | 0 <= i < |ranges| :: EntryHit(n, ranges[i], hits[i])
  }

  method AnyIpv6Range(ip128: nat, ranges: seq<Cidr>) returns (r: bool)
    requires forall i | 0 <= i < |ranges| :: ranges[i].length <= 128
    ensures r == (true in RangesHit(ip128, ranges))
  {
    r := FirstHit(ip128, ranges, RangesHit(ip128, ranges));
  }

  method FirstHit(ip128: nat, ranges: seq<Cidr>, ghost hits: seq<bool>) returns (r: bool)
    requires AreHits(ip128, ranges, hits)
    ensures r == (true in hits)
  {
    for i := 0 to |ranges|
      invariant forall k | 0 <= k < i :: !hits[k]
    {
      var matched := MatchesEntry(ip128, ranges, i, hits);
      if matched {
        return true;
      }
    }
    return false;
  }

  method MatchesEntry(ip128: nat, ranges: seq<Cidr>, i: nat, ghost hits: seq<bool>) returns (r: bool)
    requires i < |ranges| && AreHits(ip128, ranges, hits)
    ensures r == hits[i]
  {
    assert EntryHit(ip128, ranges[i], hits[i]);
    r := MatchesRange(ip128, ranges[i]);
  }

  method MatchesRange(ip128: nat, range: Cidr) returns (r: bool)
    requires range.length <= 128
    ensures r == InIpv6Range(ip128, range)
  {
    r := MatchesIpv6Prefix(ip128, range.prefix, range.length);
  }

  method ClassifyValue(big: nat) returns (r: bool)
    ensures r == ForbiddenValue(big)
  {
    var direct := AnyIpv6Range(big, FORBIDDEN_IPV6_RANGES);
    if direct {
      return true;
    }
    var embeddedV4 := EmbeddedAddress(big);
    if embeddedV4.Some? {
      r := IsForbiddenIpv4(embeddedV4.value);
      return;
    }
    return false;
  }

  /** The embedded forms, in the order they are tried. */
  method EmbeddedAddress(big: nat) returns (r: Option<nat>)
    ensures r == EmbeddedIpv4(big) && (r.Some? ==> r.value < 0x1_0000_0000)
  {
    LowHalf(big);
    LowHalf(ShiftRight(big, 80));
    var compatible := MatchesRange(big, COMPATIBLE);
    if compatible {
      return Some(And(big, 0xffffffff));
    }
    var mapped := MatchesRange(big, MAPPED);
    if mapped {
      return Some(And(big, 0xffffffff));
    }
    var translated := MatchesRange(big, TRANSLATED);
    if translated {
      return Some(And(big, 0xffffffff));
    }
    var sixToFour := MatchesRange(big, SIX_TO_FOUR);
    if sixToFour {
      return Some(And(ShiftRight(big, 80), 0xffffffff));
    }
    return None;
  }

  lemma LowHalf(n: nat)
    ensures And(n, 0xffffffff) == n % 0x1_0000_0000
  {
    PowersOfTwo();
    AndLowOnes(n, 32);
  }
}
