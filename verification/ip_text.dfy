/** The text of addresses and prefixes (section 3.1 of RFC 4632): the readers of
    Go's standard library that the program calls, and the printer.  Text with a
    colon, which could be IPv6, does not read as IPv4. */
module IPText {
  import opened Wrappers
  import opened Text
  import opened IPv4

  // ---- Decimal numerals ----

  predicate IsDigit(c: char) {
    '0' <= c <= '9'
  }

  predicate Digits(s: string) {
    s != "" && forall i :: 0 <= i < |s| ==> IsDigit(s[i])
  }

  /** Without a leading zero. */
  predicate Numeral(s: string) {
    Digits(s) && (|s| == 1 || s[0] != '0')
  }

  function DigitValue(c: char): (d: int)
    requires IsDigit(c)
    ensures 0 <= d < 10
  {
    c as int - '0' as int
  }

  function Digit(d: int): (c: char)
    requires 0 <= d < 10
    ensures IsDigit(c) && DigitValue(c) == d
  {
    ('0' as int + d) as char
  }

  function Value(s: string): nat
    requires Digits(s)
  {
    var n := |s| - 1;
    if n == 0 then DigitValue(s[0]) else 10 * Value(s[..n]) + DigitValue(s[n])
  }

  function Decimal(n: nat): (s: string)
    ensures Numeral(s) && (s[0] == '0' ==> n == 0)
  {
    if n < 10 then [Digit(n)] else Decimal(n / 10) + [Digit(n % 10)]
  }

  lemma {:induction false} ValueOfDecimal(n: nat)
    ensures Value(Decimal(n)) == n
  {
    if n >= 10 {
      var s := Decimal(n);
      ValueOfDecimal(n / 10);
      assert s[..|s| - 1] == Decimal(n / 10);
    }
  }

  lemma {:induction false} DigitBack(c: char)
    requires IsDigit(c)
    ensures Digit(DigitValue(c)) == c
  {
  }

  lemma {:induction false} DecimalStep(t: string, c: char, v: nat)
    requires v > 0 && Decimal(v) == t && IsDigit(c)
    ensures Decimal(10 * v + DigitValue(c)) == t + [c]
  {
    var n := 10 * v + DigitValue(c);
    assert n / 10 == v && n % 10 == DigitValue(c);
    DigitBack(c);
  }

  lemma {:induction false} DecimalOfValue(s: string)
    requires Numeral(s)
    ensures Decimal(Value(s)) == s && (s[0] != '0' ==> Value(s) > 0)
  {
    var n := |s| - 1;
    if n == 0 {
      DigitBack(s[0]);
      assert s == [s[0]];
    } else {
      var t := s[..n];
      assert t[0] == s[0] && s == t + [s[n]];
      DecimalOfValue(t);
      DecimalStep(t, s[n], Value(t));
    }
  }

  // ---- Addresses ----

  /** A numeral of at most `limit`. */
  function ReadUpTo(s: string, limit: nat): (r: Option<nat>)
    ensures r.Some? ==> r.value <= limit
  {
    if Numeral(s) && Value(s) <= limit then Some(Value(s)) else None
  }

  lemma {:induction false} ReadUpToDecimal(n: nat, limit: nat)
    ensures ReadUpTo(Decimal(n), limit) == if n <= limit then Some(n) else None
  {
    ValueOfDecimal(n);
  }

  lemma {:induction false} DecimalReadUpTo(s: string, limit: nat)
    requires ReadUpTo(s, limit).Some?
    ensures Decimal(ReadUpTo(s, limit).value) == s
  {
    DecimalOfValue(s);
  }

  type Byte = b: int | 0 <= b < 256

  function Combine(a: Byte, b: Byte, c: Byte, d: Byte): Address {
    256 * (256 * (256 * a + b) + c) + d
  }

  /** Byte `k`, the most significant one first. */
  function Octet(a: Address, k: nat): Byte
    requires k < 4
  {
    Down(a, 24 - 8 * k) % 256
  }

  lemma {:induction false} DownByte(a: nat)
    ensures Down(a, 8) == a / 256
  {
    var t := Down(a, 8);
    DownInterval(a, t, 8);
    UpTimes(t, 8);
    assert Pow2(8) == 256;
  }

  lemma {:induction false} OctetsAre(a: Address)
    ensures Octet(a, 0) == a / 256 / 256 / 256 && Octet(a, 1) == a / 256 / 256 % 256
    ensures Octet(a, 2) == a / 256 % 256 && Octet(a, 3) == a % 256
  {
    DownByte(a);
    DownByte(a / 256);
    DownByte(a / 256 / 256);
    DownDown(a, 8, 8);
    DownDown(a, 16, 8);
  }

  lemma {:induction false} CombineOctets(a: Address)
    ensures Combine(Octet(a, 0), Octet(a, 1), Octet(a, 2), Octet(a, 3)) == a
  {
    OctetsAre(a);
  }

  lemma {:induction false} OctetsOfCombine(a: Byte, b: Byte, c: Byte, d: Byte)
    ensures var n := Combine(a, b, c, d); Octet(n, 0) == a && Octet(n, 1) == b && Octet(n, 2) == c && Octet(n, 3) == d
  {
    var n := Combine(a, b, c, d);
    assert n / 256 == 256 * (256 * a + b) + c;
    assert n / 256 / 256 == 256 * a + b;
    OctetsAre(n);
  }

  function Octets(a: Address): (r: seq<string>)
    ensures |r| == 4
  {
    [Decimal(Octet(a, 0)), Decimal(Octet(a, 1)), Decimal(Octet(a, 2)), Decimal(Octet(a, 3))]
  }

  /** netip.Addr.String and net.IP.String */
  function PrintAddress(a: Address): string {
    Join(Octets(a), '.')
  }

  function ReadOctets(parts: seq<string>): Option<Address> {
    if |parts| != 4 then None else
    match (ReadUpTo(parts[0], 255), ReadUpTo(parts[1], 255), ReadUpTo(parts[2], 255), ReadUpTo(parts[3], 255))
    case (Some(a), Some(b), Some(c), Some(d)) => Some(Combine(a, b, c, d))
    case _ => None
  }

  /** netip.ParseAddr, and net.ParseIP followed by To4 */
  function ParseAddress(s: string): Option<Address> {
    ReadOctets(Split(s, {'.'}))
  }

  lemma {:induction false} OctetsRead(a: Address)
    ensures ReadOctets(Octets(a)) == Some(a) && AllFree(Octets(a), {'.'})
  {
    ReadUpToDecimal(Octet(a, 0), 255);
    ReadUpToDecimal(Octet(a, 1), 255);
    ReadUpToDecimal(Octet(a, 2), 255);
    ReadUpToDecimal(Octet(a, 3), 255);
    CombineOctets(a);
  }

  lemma {:induction false} ParsePrintAddress(a: Address)
    ensures ParseAddress(PrintAddress(a)) == Some(a)
  {
    OctetsRead(a);
    SplitJoin(Octets(a), '.', {'.'});
  }

  lemma {:induction false} ReadOctetsBack(parts: seq<string>)
    requires ReadOctets(parts).Some?
    ensures Octets(ReadOctets(parts).value) == parts
  {
    DecimalReadUpTo(parts[0], 255);
    DecimalReadUpTo(parts[1], 255);
    DecimalReadUpTo(parts[2], 255);
    DecimalReadUpTo(parts[3], 255);
    OctetsOfCombine(Value(parts[0]), Value(parts[1]), Value(parts[2]), Value(parts[3]));
  }

  /** Each address has one text only. */
  lemma {:induction false} PrintParseAddress(s: string)
    requires ParseAddress(s).Some?
    ensures PrintAddress(ParseAddress(s).value) == s
  {
    ReadOctetsBack(Split(s, {'.'}));
    JoinSplit(s, '.');
  }

  // ---- Prefixes ----

  /** netip.Prefix.String and net.IPNet.String */
  function PrintPrefix(p: Prefix): string {
    Join([PrintAddress(p.addr), Decimal(p.bits)], '/')
  }

  /** netip.ParsePrefix: the length is a numeral without leading zero. */
  function ParsePrefix(s: string): Option<Prefix> {
    var parts := Split(s, {'/'});
    if |parts| != 2 then None else
    match (ParseAddress(parts[0]), ReadUpTo(parts[1], 32))
    case (Some(a), Some(bits)) => Some(Prefix(a, bits))
    case _ => None
  }

  /** net.ParseCIDR, of which only the network is used: the length may have
      leading zeros. */
  function ParseCIDR(s: string): Option<Prefix> {
    var parts := Split(s, {'/'});
    if |parts| != 2 then None
    else if ParseAddress(parts[0]).Some? && Digits(parts[1]) && Value(parts[1]) <= 32 then
      Some(Masked(Prefix(ParseAddress(parts[0]).value, Value(parts[1]))))
    else None
  }

  lemma {:induction false} AddressFree(a: Address)
    ensures Free(PrintAddress(a), {'/'})
  {
    JoinFree(Octets(a), '.', {'/'});
  }

  lemma {:induction false} SplitPrefix(p: Prefix)
    ensures Split(PrintPrefix(p), {'/'}) == [PrintAddress(p.addr), Decimal(p.bits)]
  {
    AddressFree(p.addr);
    SplitJoin([PrintAddress(p.addr), Decimal(p.bits)], '/', {'/'});
  }

  lemma {:induction false} ParsePrintPrefix(p: Prefix)
    ensures ParsePrefix(PrintPrefix(p)) == Some(p)
  {
    SplitPrefix(p);
    ParsePrintAddress(p.addr);
    ReadUpToDecimal(p.bits, 32);
  }

  /** Each prefix has one text only. */
  lemma {:induction false} PrintParsePrefix(s: string)
    requires ParsePrefix(s).Some?
    ensures PrintPrefix(ParsePrefix(s).value) == s
  {
    var parts := Split(s, {'/'});
    PrintParseAddress(parts[0]);
    DecimalReadUpTo(parts[1], 32);
    JoinSplit(s, '/');
    assert parts == [parts[0], parts[1]];
  }

  lemma {:induction false} PrefixTextUnique(p: Prefix, q: Prefix)
    requires PrintPrefix(p) == PrintPrefix(q)
    ensures p == q
  {
    ParsePrintPrefix(p);
    ParsePrintPrefix(q);
  }

  lemma {:induction false} ParseCIDRPrefix(p: Prefix)
    ensures ParseCIDR(PrintPrefix(p)) == Some(Masked(p))
  {
    SplitPrefix(p);
    ParsePrintAddress(p.addr);
    ValueOfDecimal(p.bits);
  }

  /** What ParsePrefix reads ParseCIDR reads too, as the same network. */
  lemma {:induction false} ParseCIDRAgrees(s: string)
    requires ParsePrefix(s).Some?
    ensures ParseCIDR(s) == Some(Masked(ParsePrefix(s).value))
  {
  }

  /** The text is that of its own network exactly when it is the text of a
      masked prefix. */
  lemma {:induction false} CanonicalText(s: string)
    ensures ParseCIDR(s).Some? && PrintPrefix(ParseCIDR(s).value) == s
            <==> ParsePrefix(s).Some? && IsMasked(ParsePrefix(s).value)
  {
    if ParseCIDR(s).Some? && PrintPrefix(ParseCIDR(s).value) == s {
      var p := ParseCIDR(s).value;
      ParsePrintPrefix(p);
      MaskedIsMasked(Prefix(ParseAddress(Split(s, {'/'})[0]).value, Value(Split(s, {'/'})[1])));
    }
    if ParsePrefix(s).Some? && IsMasked(ParsePrefix(s).value) {
      ParseCIDRAgrees(s);
      PrintParsePrefix(s);
    }
  }
}
