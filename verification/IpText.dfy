/** IPv4 and IPv6 addresses as text: which texts are addresses and of which value. The loops that compute the same
    with shifts and masks are in `IpAddress`. */
module IpText {
  import opened Wrappers
  import opened Bits
  import opened Strings
  import Text

  // ---------- numbers ----------

  predicate IsDigit(c: char) {
    '0' <= c <= '9'
  }

  predicate IsHexDigit(c: char) {
    IsDigit(c) || 'a' <= c <= 'f' || 'A' <= c <= 'F'
  }

  function DigitValue(c: char): nat
    requires IsHexDigit(c)
    ensures DigitValue(c) < 16
  {
    if c <= '9' then c as nat - '0' as nat
    else if c <= 'F' then c as nat - 'A' as nat + 10
    else c as nat - 'a' as nat + 10
  }

  predicate AllDigits(s: string) {
    s != "" && forall i | 0 <= i < |s| :: IsDigit(s[i])
  }

  function Decimal(s: string): nat
    requires forall i | 0 <= i < |s| :: IsDigit(s[i])
  {
    if s == "" then 0 else 10 * Decimal(s[..|s| - 1]) + DigitValue(s[|s| - 1])
  }

  /** One to four hexadecimal digits. */
  predicate IsGroup(s: string) {
    1 <= |s| <= 4 && forall i | 0 <= i < |s| :: IsHexDigit(s[i])
  }

  function Hexadecimal(s: string): nat
    requires forall i | 0 <= i < |s| :: IsHexDigit(s[i])
  {
    if s == "" then 0 else 16 * Hexadecimal(s[..|s| - 1]) + DigitValue(s[|s| - 1])
  }

  function HexDigit(n: nat): char
    requires n < 16
  {
    if n < 10 then '0' + n as char else 'a' + (n - 10) as char
  }

  /** `n.toString(16)`. */
  function ToHex(n: nat): string {
    if n < 16 then [HexDigit(n)] else ToHex(n / 16) + [HexDigit(n % 16)]
  }

  // ---------- IPv4 ----------

  /** A decimal number up to 255 without leading zeros. */
  predicate IsOctet(part: string) {
    AllDigits(part) && Decimal(part) <= 255 && !(|part| > 1 && part[0] == '0')
  }

  /** The four octets as one number. */
  function Quad(a: nat, b: nat, c: nat, d: nat): nat {
    0x100_0000 * a + 0x1_0000 * b + 0x100 * c + d
  }

  function Ipv4Number(ip: string): (r: Option<nat>)
    ensures r.Some? ==> r.value < 0x1_0000_0000
  {
    var parts := Split(Text.Trim(ip), '.');
    if |parts| == 4 && IsOctet(parts[0]) && IsOctet(parts[1]) && IsOctet(parts[2]) && IsOctet(parts[3])
    then Some(Quad(Decimal(parts[0]), Decimal(parts[1]), Decimal(parts[2]), Decimal(parts[3])))
    else None
  }

  // ---------- IPv6 ----------

  function StripBrackets(s: string): string {
    var inner := if StartsWith(s, "[") then s[1..] else s;
    if EndsWith(inner, "]") then inner[..|inner| - 1] else inner
  }

  /** The text without brackets and zone. */
  function Bare(s: string): string {
    Split(StripBrackets(s), '%')[0]
  }

  function Clean(s: string): string {
    Text.Trim(Text.Lower(Bare(s)))
  }

  predicate ColonsOk(clean: string) {
    && clean != "" && !Includes(clean, ":::")
    && !(StartsWith(clean, ":") && !StartsWith(clean, "::"))
    && !(EndsWith(clean, ":") && !EndsWith(clean, "::"))
  }

  /** The text with a dotted quad after the last colon rewritten to two groups. */
  function EmbedQuad(clean: string): Option<string> {
    var lastColon := LastIndexOf(clean, ':');
    if lastColon == -1 then Some(clean)
    else
      var after := clean[lastColon + 1..];
      if !Includes(after, ".") then Some(clean)
      else
        match Ipv4Number(after)
        case None => None
        case Some(v4) =>
          Some(clean[..lastColon + 1] + ToHex(And(ShiftRight(v4, 16), 0xffff)) + ":" + ToHex(And(v4, 0xffff)))
  }

  function Zeros(n: nat): seq<string> {
    seq(n, _ => "0")
  }

  function Halves(s: string): seq<string> {
    if s == "" then [] else Split(s, ':')
  }

  /** The groups of the text, with `::` filled up to eight. */
  function Groups(text: string): Option<seq<string>> {
    if Includes(text, "::") then
      var halves := SplitOn(text, "::");
      if |halves| != 2 then None
      else
        var left, right := Halves(halves[0]), Halves(halves[1]);
        if "" in left || "" in right || |left| + |right| > 7 then None
        else Some(left + Zeros(8 - |left| - |right|) + right)
    else
      var groups := Split(text, ':');
      if "" in groups then None else Some(groups)
  }

  type Words = seq<nat>

  predicate IsWords(ws: Words) {
    |ws| == 8 && forall i | 0 <= i < 8 :: ws[i] < 0x1_0000
  }

  function GroupValues(groups: seq<string>): (ws: Words)
    requires forall g | g in groups :: IsGroup(g)
    ensures |ws| == |groups|
  {
    seq(|groups|, i requires 0 <= i < |groups| => assert IsGroup(groups[i]); Hexadecimal(groups[i]))
  }

  function WordsOf(groups: seq<string>): Option<Words> {
    if |groups| == 8 && forall g | g in groups :: IsGroup(g) then Some(GroupValues(groups)) else None
  }

  function ParseClean(clean: string): Option<Words> {
    if !ColonsOk(clean) then None
    else
      match EmbedQuad(clean)
      case None => None
      case Some(text) =>
        match Groups(text)
        case None => None
        case Some(groups) => WordsOf(groups)
  }

  /** The eight words of an IPv6 text. */
  function ParseWords(ip: string): Option<Words> {
    ParseClean(Clean(ip))
  }

  /** The words as one number, the first word highest. */
  function Value(ws: Words): nat {
    if ws == [] then 0 else 0x1_0000 * Value(ws[..|ws| - 1]) + ws[|ws| - 1]
  }
}
