/** Dotted-quad text of an IPv4 address and the 4-via-6 literal built from it. */
module Address {
  import opened Dns

  /** The fixed prefix of every synthesised AAAA address (an fd00::/8 unique-local prefix). */
  const VIA6_PREFIX := "fd7a:115c:a1e0:b1a:0:fe:"

  predicate IsDigit(c: char) {
    '0' as int <= c as int <= '9' as int
  }

  function Digit(d: int): (c: char)
    requires 0 <= d < 10
    ensures IsDigit(c) && c as int - '0' as int == d
  {
    ('0' as int + d) as char
  }

  function DigitValue(c: char): (d: nat)
    requires IsDigit(c)
    ensures d < 10 && Digit(d) == c
  {
    c as int - '0' as int
  }

  /** Decimal text of one octet, without leading zeros. */
  function OctetText(n: Octet): (s: string)
    ensures 1 <= |s| <= 3
    ensures forall k :: 0 <= k < |s| ==> IsDigit(s[k])
    ensures |s| > 1 ==> s[0] != '0'
  {
    if n < 10 then [Digit(n)]
    else if n < 100 then [Digit(n / 10), Digit(n % 10)]
    else [Digit(n / 100), Digit(n / 10 % 10), Digit(n % 10)]
  }

  /** The usual text form of an IPv4 address, `a.b.c.d`. */
  function DottedQuad(ip: IPv4): string {
    OctetText(ip.a) + "." + (OctetText(ip.b) + "." + (OctetText(ip.c) + "." + OctetText(ip.d)))
  }

  /** The AAAA address the synthesiser writes for `ip`. */
  function Via6(ip: IPv4): string {
    VIA6_PREFIX + DottedQuad(ip)
  }

  // ----- Reading the text back -----

  /** The pieces of `s` between dots. */
  function Fields(s: string): (r: seq<string>)
    ensures |r| >= 1
    decreases |s|
  {
    if s == [] then [[]]
    else if s[0] == '.' then [[]] + Fields(s[1..])
    else
      var f := Fields(s[1..]);
      [[s[0]] + f[0]] + f[1..]
  }

  /** Value of a string of decimal digits. */
  function DigitsValue(s: string): nat
    requires forall k :: 0 <= k < |s| ==> IsDigit(s[k])
    decreases |s|
  {
    if s == [] then 0
    else DigitsValue(s[..|s| - 1]) * 10 + DigitValue(s[|s| - 1])
  }

  /** One to three digits, no leading zero, value below 256. */
  function ParseOctet(s: string): Option<Octet> {
    if 1 <= |s| <= 3 && (forall k :: 0 <= k < |s| ==> IsDigit(s[k])) && (|s| == 1 || s[0] != '0')
    then
      var v := DigitsValue(s);
      if v < 256 then Some(v) else None
    else None
  }

  function ParseDottedQuad(s: string): Option<IPv4> {
    var f := Fields(s);
    if |f| != 4 then None
    else match (ParseOctet(f[0]), ParseOctet(f[1]), ParseOctet(f[2]), ParseOctet(f[3]))
      case (Some(a), Some(b), Some(c), Some(d)) => Some(IPv4(a, b, c, d))
      case _ => None
  }

  /** The IPv4 address a 4-via-6 literal carries, if it is one. */
  function StripVia6(addr: string): Option<IPv4> {
    if |VIA6_PREFIX| <= |addr| && addr[..|VIA6_PREFIX|] == VIA6_PREFIX
    then ParseDottedQuad(addr[|VIA6_PREFIX|..])
    else None
  }

  // ----- Round trips -----

  lemma {:induction false} FieldsOfDotless(x: string)
    requires forall k :: 0 <= k < |x| ==> x[k] != '.'
    ensures Fields(x) == [x]
    decreases |x|
  {
    if x != [] {
      FieldsOfDotless(x[1..]);
      assert [x[0]] + x[1..] == x;
    }
  }

  lemma {:induction false} FieldsOfJoin(x: string, y: string)
    requires forall k :: 0 <= k < |x| ==> x[k] != '.'
    ensures Fields(x + "." + y) == [x] + Fields(y)
    decreases |x|
  {
    if x == [] {
      assert x + "." + y == ['.'] + y;
      assert (['.'] + y)[1..] == y;
    } else {
      var s := x + "." + y;
      assert s[0] == x[0] && s[1..] == x[1..] + "." + y;
      FieldsOfJoin(x[1..], y);
      assert [x[0]] + x[1..] == x;
    }
  }

  lemma OctetRoundTrip(n: Octet)
    ensures ParseOctet(OctetText(n)) == Some(n)
  {
    var s := OctetText(n);
    if n < 10 {
      assert s[..0] == [];
    } else if n < 100 {
      TwoDigitOctetValue(n);
    } else {
      ThreeDigitOctetValue(n);
    }
  }

  lemma TwoDigitOctetValue(n: Octet)
    requires 10 <= n < 100
    ensures DigitsValue(OctetText(n)) == n
  {
    var s := OctetText(n);
    assert DigitValue(s[0]) == n / 10 && DigitValue(s[1]) == n % 10;
    TwoDigitsValue(s);
  }

  lemma ThreeDigitOctetValue(n: Octet)
    requires 100 <= n
    ensures DigitsValue(OctetText(n)) == n
  {
    var s := OctetText(n);
    assert DigitValue(s[0]) == n / 100 && DigitValue(s[1]) == n / 10 % 10 && DigitValue(s[2]) == n % 10;
    ThreeDigitsValue(s);
    assert n % 100 == n / 10 % 10 * 10 + n % 10;
  }

  lemma TwoDigitsValue(s: string)
    requires |s| == 2 && IsDigit(s[0]) && IsDigit(s[1])
    ensures DigitsValue(s) == DigitValue(s[0]) * 10 + DigitValue(s[1])
  {
    var h := s[..1];
    assert h[..0] == [] && h[0] == s[0];
    assert DigitsValue(h) == DigitValue(s[0]);
    assert s[..|s| - 1] == h;
  }

  lemma ThreeDigitsValue(s: string)
    requires |s| == 3 && IsDigit(s[0]) && IsDigit(s[1]) && IsDigit(s[2])
    ensures DigitsValue(s) == DigitValue(s[0]) * 100 + DigitValue(s[1]) * 10 + DigitValue(s[2])
  {
    TwoDigitsValue(s[..2]);
    assert s[..2][0] == s[0] && s[..2][1] == s[1];
  }

  lemma OctetCanonical(s: string, n: Octet)
    requires ParseOctet(s) == Some(n)
    ensures s == OctetText(n)
  {
    assert forall k :: 0 <= k < |s| ==> IsDigit(s[k]);
    assert DigitsValue(s) == n;
    if |s| == 1 {
      assert s[..0] == [];
      assert s == [Digit(DigitValue(s[0]))];
    } else if |s| == 2 {
      TwoDigitsCanonical(s, n);
    } else {
      ThreeDigitsCanonical(s, n);
    }
  }

  lemma TwoDigitsCanonical(s: string, n: Octet)
    requires |s| == 2 && IsDigit(s[0]) && IsDigit(s[1]) && s[0] != '0'
    requires DigitsValue(s) == n
    ensures s == OctetText(n)
  {
    var d0, d1 := DigitValue(s[0]), DigitValue(s[1]);
    TwoDigitsValue(s);
    assert 10 <= n < 100;
    assert n / 10 == d0 && n % 10 == d1;
    assert s == [Digit(d0), Digit(d1)];
  }

  lemma ThreeDigitsCanonical(s: string, n: Octet)
    requires |s| == 3 && IsDigit(s[0]) && IsDigit(s[1]) && IsDigit(s[2]) && s[0] != '0'
    requires DigitsValue(s) == n
    ensures s == OctetText(n)
  {
    var d0, d1, d2 := DigitValue(s[0]), DigitValue(s[1]), DigitValue(s[2]);
    ThreeDigitsValue(s);
    assert 100 <= n;
    assert n / 100 == d0 && n / 10 % 10 == d1 && n % 10 == d2;
    assert s == [Digit(d0), Digit(d1), Digit(d2)];
  }

  lemma OctetTextDotless(n: Octet)
    ensures forall k :: 0 <= k < |OctetText(n)| ==> OctetText(n)[k] != '.'
  {
    assert !IsDigit('.');
  }

  lemma QuadFields(ip: IPv4)
    ensures Fields(DottedQuad(ip)) == [OctetText(ip.a), OctetText(ip.b), OctetText(ip.c), OctetText(ip.d)]
  {
    var a, b, c, d := OctetText(ip.a), OctetText(ip.b), OctetText(ip.c), OctetText(ip.d);
    OctetTextDotless(ip.a);
    OctetTextDotless(ip.b);
    OctetTextDotless(ip.c);
    OctetTextDotless(ip.d);
    var cd := c + "." + d;
    var bcd := b + "." + cd;
    FieldsOfDotless(d);
    FieldsOfJoin(c, d);
    FieldsOfJoin(b, cd);
    FieldsOfJoin(a, bcd);
  }

  /** Reading back the text of an address gives the address. */
  lemma {:induction false} DottedQuadRoundTrip(ip: IPv4)
    ensures ParseDottedQuad(DottedQuad(ip)) == Some(ip)
  {
    QuadFields(ip);
    OctetRoundTrip(ip.a);
    OctetRoundTrip(ip.b);
    OctetRoundTrip(ip.c);
    OctetRoundTrip(ip.d);
  }

  /** Join pieces with dots: the inverse of `Fields`. */
  function JoinDots(f: seq<string>): string
    requires |f| >= 1
  {
    if |f| == 1 then f[0] else f[0] + "." + JoinDots(f[1..])
  }

  lemma {:induction false} JoinFields(s: string)
    ensures JoinDots(Fields(s)) == s
    decreases |s|
  {
    if s != [] {
      JoinFields(s[1..]);
      var f := Fields(s[1..]);
      if s[0] == '.' {
        assert Fields(s) == [[]] + f;
        assert ([[]] + f)[1..] == f;
      } else {
        var g := [[s[0]] + f[0]] + f[1..];
        assert Fields(s) == g;
        if |f| == 1 {
          assert [s[0]] + s[1..] == s;
        } else {
          assert g[1..] == f[1..];
          assert JoinDots(f) == f[0] + "." + JoinDots(f[1..]);
          assert [s[0]] + s[1..] == s;
        }
      }
    }
  }

  /** Only the text `DottedQuad` writes is read back as an address. */
  lemma {:induction false} DottedQuadCanonical(s: string, ip: IPv4)
    requires ParseDottedQuad(s) == Some(ip)
    ensures s == DottedQuad(ip)
  {
    var f := Fields(s);
    OctetCanonical(f[0], ip.a);
    OctetCanonical(f[1], ip.b);
    OctetCanonical(f[2], ip.c);
    OctetCanonical(f[3], ip.d);
    JoinFields(s);
    assert f[1..][1..][1..] == [f[3]];
    assert JoinDots(f[1..][1..]) == f[2] + "." + f[3];
    assert JoinDots(f[1..]) == f[1] + "." + (f[2] + "." + f[3]);
    assert s == f[0] + "." + (f[1] + "." + (f[2] + "." + f[3]));
  }

  /** Stripping the prefix and reading the dotted quad recovers the four octets,
      and only a literal `Via6` writes is read back. */
  lemma {:induction false} Via6RoundTrip(ip: IPv4, addr: string)
    ensures StripVia6(Via6(ip)) == Some(ip)
    ensures StripVia6(addr) == Some(ip) ==> addr == Via6(ip)
  {
    var v := Via6(ip);
    assert v[..|VIA6_PREFIX|] == VIA6_PREFIX;
    assert v[|VIA6_PREFIX|..] == DottedQuad(ip);
    DottedQuadRoundTrip(ip);
    if StripVia6(addr) == Some(ip) {
      DottedQuadCanonical(addr[|VIA6_PREFIX|..], ip);
      assert addr == addr[..|VIA6_PREFIX|] + addr[|VIA6_PREFIX|..];
    }
  }

  /** Distinct addresses give distinct 4-via-6 literals. */
  lemma {:induction false} Via6Injective(ip1: IPv4, ip2: IPv4)
    requires Via6(ip1) == Via6(ip2)
    ensures ip1 == ip2
  {
    Via6RoundTrip(ip1, Via6(ip2));
    Via6RoundTrip(ip2, Via6(ip2));
  }
}
