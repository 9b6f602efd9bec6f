/**
 * Dotted quads, CIDR membership and the blocked IPv4 ranges of the edge dial guard
 * (brainrouter-desktop/electron/edgeDialGuard.ts). The shift/or loop and the mask test are the
 * code's own 32-bit operations; they are shown to be positional values and integer intervals.
 */
module Ipv4Blocks {
  import opened Common
  import opened BitWords
  import opened AddressText

  /** Big-endian value of a sequence of octets. */
  function BigEndian(octets: seq<nat>): nat {
    if octets == [] then 0 else 256 * BigEndian(octets[..|octets| - 1]) + octets[|octets| - 1]
  }

  predicate Octets(b: seq<nat>) {
    forall i :: 0 <= i < |b| ==> b[i] < 256
  }

  lemma {:induction false} BigEndianBound(octets: seq<nat>)
    requires Octets(octets)
    ensures BigEndian(octets) < Pow2(8 * |octets|)
  {
    if octets != [] {
      BigEndianBound(octets[..|octets| - 1]);
      Pow2Of32();
      Pow2Splits(8, 8 * |octets|);
    }
  }

  predicate OctetPart(s: string) {
    DecimalPart(s) && Numeral(s, 10) && NumberOf(s, 10) <= 255
  }

  /** The values of the first `n` parts. */
  function OctetsOf(parts: seq<string>, n: nat): (b: seq<nat>)
    requires n <= |parts| && forall j :: 0 <= j < n ==> OctetPart(parts[j])
    ensures |b| == n && Octets(b)
  {
    var b := seq(n, j requires 0 <= j < n => assert OctetPart(parts[j]); NumberOf(parts[j], 10));
    assert forall j :: 0 <= j < n ==> OctetPart(parts[j]) && b[j] == NumberOf(parts[j], 10);
    b
  }

  /** What a dotted quad denotes: four decimal parts of one to three digits, each at most 255. */
  function Ipv4Value(ip: string): Option<nat> {
    var parts := Split(ip, '.');
    if |parts| == 4 && forall i :: 0 <= i < 4 ==> OctetPart(parts[i])
    then Some(BigEndian(OctetsOf(parts, 4)))
    else None
  }

  lemma Ipv4ValueBound(ip: string)
    ensures Ipv4Value(ip).Some? ==> Ipv4Value(ip).value < TWO32
  {
    if Ipv4Value(ip).Some? {
      var parts := Split(ip, '.');
      BigEndianBound(OctetsOf(parts, 4));
      Pow2Of32();
    }
  }

  /** One turn of the loop: shifting a value below 2^24 left by eight and or-ing an octet in appends the octet. */
  lemma ShiftInOctet(n: nat, value: nat)
    requires n < TWO32 / 256 && value < 256
    ensures BitOr(Shl(ToInt32(n), 8), value) == ToInt32(256 * n + value)
  {
    Pow2Of32();
    OrBelow(n, value, 8);
    Word(n);
    Word(n * 256);
    Word(value);
    hide Or, Pow2, ToInt32, ToUint32;
  }

  lemma AppendOctet(parts: seq<string>, i: nat)
    requires i < |parts| && i < 4 && OctetPart(parts[i]) && forall j :: 0 <= j < i ==> OctetPart(parts[j])
    ensures BitOr(Shl(ToInt32(BigEndian(OctetsOf(parts, i))), 8), NumberOf(parts[i], 10)) ==
      ToInt32(BigEndian(OctetsOf(parts, i + 1)))
  {
    hide BitOr, Shl, ToInt32, NumberOf;
    AtMostThree(OctetsOf(parts, i));
    ShiftInOctet(BigEndian(OctetsOf(parts, i)), NumberOf(parts[i], 10));
    assert OctetsOf(parts, i + 1)[..i] == OctetsOf(parts, i);
  }

  /** The signed shift/or loop computes the positional value, and fails exactly on malformed text. */
  method Ipv4ToInt(ip: string) returns (r: Option<nat>)
    ensures r == Ipv4Value(ip)
  {
    var parts := Split(ip, '.');
    if |parts| != 4 { return None; }
    var n: int := 0;
    SignedZero();
    var i := 0;
    hide Split, ToInt32, ToUint32, Shl, Shr, BitOr, NumberOf;
    while i < 4
      invariant i <= 4
      invariant forall j :: 0 <= j < i ==> OctetPart(parts[j])
      invariant n == ToInt32(BigEndian(OctetsOf(parts, i)))
    {
      if !DecimalPart(parts[i]) { return None; }
      assert Numeral(parts[i], 10);
      var value := NumberOf(parts[i], 10);
      if value > 255 { return None; }
      AppendOctet(parts, i);
      n := BitOr(Shl(n, 8), value);
      i := i + 1;
    }
    Ipv4ValueBound(ip);
    Word(BigEndian(OctetsOf(parts, 4)));
    r := Some(Shr(n, 0));
  }

  lemma SignedZero()
    ensures ToInt32(0) == 0
  {}

  lemma AtMostThree(octets: seq<nat>)
    requires Octets(octets) && |octets| < 4
    ensures BigEndian(octets) < TWO32 / 256
  {
    BigEndianBound(octets);
    Pow2Of32();
    Pow2Splits(8 * |octets|, 24);
    Pow2Splits(8, 32);
  }

  // ---------------------------------------------------------------------------------------
  // CIDR blocks
  // ---------------------------------------------------------------------------------------

  function Mask(bits: nat): nat
    requires bits <= 32
  {
    if bits == 0 then 0 else Shr(Shl(0xffff_ffff, 32 - bits), 0)
  }

  predicate InCidr4(ipInt: nat, base: string, bits: nat)
    requires bits <= 32
  {
    match Ipv4Value(base)
    case None => false
    case Some(b) => BitAnd(ipInt, Mask(bits)) == BitAnd(b, Mask(bits))
  }

  lemma MaskIs(bits: nat)
    requires bits <= 32
    ensures Pow2(32 - bits) <= TWO32 && Mask(bits) == TWO32 - Pow2(32 - bits)
  {
    Pow2Of32();
    Pow2Splits(32 - bits, 32);
    var p := Pow2(32 - bits);
    if bits > 0 {
      assert p <= p * Pow2(bits);
      assert 0xffff_ffff * p == (p - 1) * TWO32 + (TWO32 - p);
      DivUnique(0xffff_ffff * p, TWO32, p - 1, TWO32 - p);
      SignedKeepsBits(0xffff_ffff * p);
      hide Pow2;
      assert Pow2(0) == 1;
    }
  }

  /** The mask test holds exactly in the network's integer interval, for every word and every prefix length. */
  lemma CidrIsInterval(n: nat, base: string, bits: nat)
    requires n < TWO32 && bits <= 32 && Ipv4Value(base).Some?
    ensures var size := Pow2(32 - bits);
      var network := Ipv4Value(base).value / size * size;
      InCidr4(n, base, bits) <==> network <= n < network + size
  {
    var b := Ipv4Value(base).value;
    Ipv4ValueBound(base);
    MaskIs(bits);
    SameUnderMask(n, b, 32 - bits);
    hide *;
    SameQuotient(n, b, Pow2(32 - bits));
  }

  lemma SameQuotient(n: nat, b: nat, p: nat)
    requires p > 0
    ensures n / p == b / p <==> b / p * p <= n < b / p * p + p
  {
    if b / p * p <= n < b / p * p + p {
      DivUnique(n, p, b / p, n - b / p * p);
    }
  }

  // ---------------------------------------------------------------------------------------
  // The blocked ranges
  // ---------------------------------------------------------------------------------------

  datatype Range = Range(base: string, bits: nat)

  const BLOCKED_V4 := [
    Range("0.0.0.0", 8), Range("10.0.0.0", 8), Range("100.64.0.0", 10), Range("127.0.0.0", 8), Range("169.254.0.0", 16),
    Range("172.16.0.0", 12), Range("192.0.0.0", 24), Range("192.0.2.0", 24), Range("192.88.99.0", 24),
      Range("192.168.0.0", 16),
    Range("198.18.0.0", 15), Range("198.51.100.0", 24), Range("203.0.113.0", 24), Range("224.0.0.0", 4),
      Range("240.0.0.0", 4)
  ]

  /** `isBlockedIpv4` for a parsed address. */
  predicate BlockedWord(n: nat) {
    exists i :: 0 <= i < |BLOCKED_V4| && InCidr4(n, BLOCKED_V4[i].base, BLOCKED_V4[i].bits)
  }

  /** Unparseable text is blocked. */
  predicate IsBlockedIpv4(ip: string) {
    match Ipv4Value(ip)
    case None => true
    case Some(n) => BlockedWord(n)
  }

  /** The fifteen blocks as half-open integer intervals, in the order of `BLOCKED_V4`. */
  const BLOCKED_INTERVALS: seq<(nat, nat)> := [
    (0x0000_0000, 0x0100_0000), (0x0a00_0000, 0x0b00_0000), (0x6440_0000, 0x6480_0000), (0x7f00_0000, 0x8000_0000),
      (0xa9fe_0000, 0xa9ff_0000),
    (0xac10_0000, 0xac20_0000), (0xc000_0000, 0xc000_0100), (0xc000_0200, 0xc000_0300), (0xc058_6300, 0xc058_6400),
      (0xc0a8_0000, 0xc0a9_0000),
    (0xc612_0000, 0xc614_0000), (0xc633_6400, 0xc633_6500), (0xcb00_7100, 0xcb00_7200), (0xe000_0000, 0xf000_0000),
      (0xf000_0000, 0x1_0000_0000)
  ]

  predicate InIntervals(n: nat) {
    exists i :: 0 <= i < 15 && BLOCKED_INTERVALS[i].0 <= n < BLOCKED_INTERVALS[i].1
  }

  lemma QuadValue(a: nat, b: nat, c: nat, d: nat)
    ensures BigEndian([a, b, c, d]) == 0x100_0000 * a + 0x1_0000 * b + 0x100 * c + d
  {
    assert [a, b, c, d][..3] == [a, b, c] && [a, b, c][..2] == [a, b] && [a, b][..1] == [a] && [a][..0] == [];
    assert BigEndian([a]) == a;
    assert BigEndian([a, b]) == 256 * a + b;
    assert BigEndian([a, b, c]) == 256 * (256 * a + b) + c;
  }

  lemma Digit1(x: char)
    requires IsDigit(x)
    ensures OctetPart([x]) && NumberOf([x], 10) == DigitValue(x)
  {
    assert [x][..0] == [];
  }

  lemma Digit2(x: char, y: char)
    requires IsDigit(x) && IsDigit(y)
    ensures OctetPart([x, y]) && NumberOf([x, y], 10) == 10 * DigitValue(x) + DigitValue(y)
  {
    Digit1(x);
    assert [x, y][..1] == [x];
  }

  lemma Digit3(x: char, y: char, z: char)
    requires IsDigit(x) && IsDigit(y) && IsDigit(z) && 100 * DigitValue(x) + 10 * DigitValue(y) + DigitValue(z) < 256
    ensures OctetPart([x, y, z]) && NumberOf([x, y, z], 10) == 100 * DigitValue(x) + 10 * DigitValue(y) + DigitValue(z)
  {
    Digit2(x, y);
    assert [x, y, z][..2] == [x, y];
  }

  function Number(s: string): nat
    requires OctetPart(s)
  {
    NumberOf(s, 10)
  }

  lemma QuadOf(ip: string, a: string, b: string, c: string, d: string)
    requires OctetPart(a) && OctetPart(b) && OctetPart(c) && OctetPart(d)
    requires ip == a + "." + b + "." + c + "." + d
    ensures Ipv4Value(ip) == Some(0x100_0000 * Number(a) + 0x1_0000 * Number(b) + 0x100 * Number(c) + Number(d))
  {
    var parts := [a, b, c, d];
    assert AllFree(parts, '.');
    SplitJoin(parts, '.');
    assert parts[1..] == [b, c, d] && [b, c, d][1..] == [c, d] && [c, d][1..] == [d];
    assert Join([c, d], '.') == c + "." + d;
    assert Join([b, c, d], '.') == b + "." + (c + "." + d);
    assert Join(parts, '.') == a + "." + b + "." + c + "." + d;
    assert OctetsOf(parts, 4) == [Number(a), Number(b), Number(c), Number(d)];
    QuadValue(Number(a), Number(b), Number(c), Number(d));
  }

  lemma Numbers()
    ensures OctetPart("0") && Number("0") == 0 && OctetPart("2") && Number("2") == 2
    ensures OctetPart("10") && Number("10") == 10 && OctetPart("64") && Number("64") == 64 && OctetPart("16")
    ensures Number("16") == 16
    ensures OctetPart("88") && Number("88") == 88 && OctetPart("99") && Number("99") == 99 && OctetPart("18")
    ensures Number("18") == 18
    ensures OctetPart("51") && Number("51") == 51
  {
    Digit1('0'); Digit1('2'); Digit2('1', '0'); Digit2('6', '4'); Digit2('1', '6');
    Digit2('8', '8'); Digit2('9', '9'); Digit2('1', '8'); Digit2('5', '1');
  }

  lemma BigNumbers()
    ensures OctetPart("100") && Number("100") == 100 && OctetPart("127") && Number("127") == 127 && OctetPart("169")
    ensures Number("169") == 169
    ensures OctetPart("254") && Number("254") == 254 && OctetPart("172") && Number("172") == 172 && OctetPart("192")
    ensures Number("192") == 192
    ensures OctetPart("168") && Number("168") == 168 && OctetPart("198") && Number("198") == 198 && OctetPart("203")
    ensures Number("203") == 203
    ensures OctetPart("113") && Number("113") == 113 && OctetPart("224") && Number("224") == 224 && OctetPart("240")
    ensures Number("240") == 240
  {
    Digit3('1', '0', '0'); Digit3('1', '2', '7'); Digit3('1', '6', '9'); Digit3('2', '5', '4'); Digit3('1', '7', '2');
    Digit3('1', '9', '2');
    Digit3('1', '6', '8'); Digit3('1', '9', '8'); Digit3('2', '0', '3'); Digit3('1', '1', '3'); Digit3('2', '2', '4');
    Digit3('2', '4', '0');
  }

  lemma Bases0()
    ensures forall i :: 0 <= i < 5 ==> Ipv4Value(BLOCKED_V4[i].base) == Some(BLOCKED_INTERVALS[i].0)
  {
    Numbers();
    BigNumbers();
    hide OctetPart, Number, Ipv4Value;
    QuadOf("0.0.0.0", "0", "0", "0", "0");
    QuadOf("10.0.0.0", "10", "0", "0", "0");
    QuadOf("100.64.0.0", "100", "64", "0", "0");
    QuadOf("127.0.0.0", "127", "0", "0", "0");
    QuadOf("169.254.0.0", "169", "254", "0", "0");
  }

  lemma Bases1()
    ensures forall i :: 5 <= i < 10 ==> Ipv4Value(BLOCKED_V4[i].base) == Some(BLOCKED_INTERVALS[i].0)
  {
    Numbers();
    BigNumbers();
    hide OctetPart, Number, Ipv4Value;
    QuadOf("172.16.0.0", "172", "16", "0", "0");
    QuadOf("192.0.0.0", "192", "0", "0", "0");
    QuadOf("192.0.2.0", "192", "0", "2", "0");
    QuadOf("192.88.99.0", "192", "88", "99", "0");
    QuadOf("192.168.0.0", "192", "168", "0", "0");
  }

  lemma Bases2()
    ensures forall i :: 10 <= i < 15 ==> Ipv4Value(BLOCKED_V4[i].base) == Some(BLOCKED_INTERVALS[i].0)
  {
    Numbers();
    BigNumbers();
    hide OctetPart, Number, Ipv4Value;
    QuadOf("198.18.0.0", "198", "18", "0", "0");
    QuadOf("198.51.100.0", "198", "51", "100", "0");
    QuadOf("203.0.113.0", "203", "0", "113", "0");
    QuadOf("224.0.0.0", "224", "0", "0", "0");
    QuadOf("240.0.0.0", "240", "0", "0", "0");
  }

  /** Every listed base is the aligned start of an interval of the size its prefix length gives. */
  lemma SizeOf(i: nat)
    requires i < 15
    ensures var size := Pow2(32 - BLOCKED_V4[i].bits); var lo := BLOCKED_INTERVALS[i].0;
      BLOCKED_INTERVALS[i].1 == lo + size && lo / size * size == lo
  {
    Pow2Of32();
    assert Pow2(24) == 0x100_0000 by { Pow2Splits(8, 24); }
    assert Pow2(20) == 0x10_0000;
    assert Pow2(17) == 0x2_0000;
    assert Pow2(22) == 0x40_0000;
    assert Pow2(28) == 0x1000_0000;
  }

  lemma RangeIsInterval(n: nat, i: nat)
    requires n < TWO32 && i < 15
    ensures InCidr4(n, BLOCKED_V4[i].base, BLOCKED_V4[i].bits) <==> BLOCKED_INTERVALS[i].0 <= n < BLOCKED_INTERVALS[i].1
  {
    Bases0();
    Bases1();
    Bases2();
    SizeOf(i);
    hide *;
    CidrIsInterval(n, BLOCKED_V4[i].base, BLOCKED_V4[i].bits);
  }

  /** An address is blocked exactly when it does not parse or lies in one of the fifteen intervals. */
  lemma BlockedIffInIntervals(ip: string)
    ensures IsBlockedIpv4(ip) <==> Ipv4Value(ip).None? || InIntervals(Ipv4Value(ip).value)
  {
    if Ipv4Value(ip).Some? {
      var n := Ipv4Value(ip).value;
      Ipv4ValueBound(ip);
      forall i | 0 <= i < 15
        ensures InCidr4(n, BLOCKED_V4[i].base, BLOCKED_V4[i].bits) <==>
          BLOCKED_INTERVALS[i].0 <= n < BLOCKED_INTERVALS[i].1
      {
        RangeIsInterval(n, i);
      }
      hide InCidr4, Ipv4Value;
    }
  }
}
