/**
 * The edge dial guard (brainrouter-desktop/electron/edgeDialGuard.ts): IPv6 text to bytes, the
 * blocked IPv6 ranges with their embedded IPv4 addresses, and the vetting of a dial target.
 */
module EdgeDialGuard {
  import opened Common
  import opened BitWords
  import opened AddressText
  import opened Ipv4Blocks
  import opened Ipv6Text

  // ---------------------------------------------------------------------------------------
  // Text to bytes
  // ---------------------------------------------------------------------------------------

  /** Each group as two octets, high one first. */
  function BytesOf(groups: seq<nat>): (b: seq<nat>)
    ensures |b| == 2 * |groups|
  {
    seq(2 * |groups|, i requires 0 <= i < 2 * |groups| =>
      if i % 2 == 0 then groups[i / 2] / 256 else groups[i / 2] % 256)
  }

  function Ipv6Bytes(input: string): Option<seq<nat>> {
    match Ipv6Groups(input)
    case None => None
    case Some(g) => Some(BytesOf(g))
  }

  lemma {:induction false} AndLow(n: nat, k: nat)
    ensures And(n, Pow2(k) - 1) == n % Pow2(k)
    decreases k
  {
    if k > 0 {
      AndLow(n / 2, k - 1);
      var p := Pow2(k - 1);
      assert n % (2 * p) == 2 * (n / 2 % p) + n % 2 by { ModTwice(n, p); }
      assert (2 * p - 1) / 2 == p - 1 && (2 * p - 1) % 2 == 1;
    }
  }

  lemma ModTwice(n: nat, p: nat)
    requires p > 0
    ensures n % (2 * p) == 2 * (n / 2 % p) + n % 2
  {
    var q, r := n / 2 / p, n / 2 % p;
    assert n == 2 * (q * p + r) + n % 2;
    assert 2 * (q * p) == q * (2 * p);
    DivUnique(n, 2 * p, q, 2 * r + n % 2);
  }

  lemma LowBits(x: nat, k: nat)
    requires x < TWO32 && (k == 8 || k == 16)
    ensures BitAnd(x, Pow2(k) - 1) == x % Pow2(k)
  {
    Pow2Of32();
    AndLow(x, k);
    Word(x);
    SmallWord(Pow2(k) - 1);
    SmallWord(x % Pow2(k));
    hide And, Pow2, ToInt32, ToUint32;
  }

  lemma HighBits(x: nat, k: nat)
    requires x < TWO32 && k < 32
    ensures Shr(x, k) == x / Pow2(k)
  {
    Word(x);
    hide Pow2, ToUint32;
  }

  /** `(g >> 8) & 0xff` and `g & 0xff` are the two octets of a group. */
  lemma GroupOctets(g: nat)
    requires g < 0x1_0000
    ensures BitAnd(Shr(g, 8), 0xff) == g / 256 && BitAnd(g, 0xff) == g % 256
  {
    Pow2Of32();
    LowBits(g, 8);
    HighBits(g, 8);
    LowBits(g / 256, 8);
    hide BitAnd, Shr, Pow2;
  }

  /** `v4 >>> 16` and its low half, masked to sixteen bits. */
  lemma WordHalves(v: nat)
    requires v < TWO32
    ensures BitAnd(Shr(v, 16), 0xffff) == v / 0x1_0000 && BitAnd(v, 0xffff) == v % 0x1_0000
  {
    Pow2Of32();
    LowBits(v, 16);
    HighBits(v, 16);
    LowBits(v / 0x1_0000, 16);
    hide BitAnd, Shr, Pow2;
  }

  method ToGroupList(segment: string) returns (r: Option<seq<nat>>)
    ensures r == ToGroups(segment)
    ensures r.Some? ==> Groups(r.value)
  {
    if segment == "" { return Some([]); }
    var parts := Split(segment, ':');
    var out: seq<nat> := [];
    var i := 0;
    while i < |parts|
      invariant i <= |parts| && |out| == i && Groups(out)
      invariant forall j :: 0 <= j < i ==> HexGroup(parts[j]) && out[j] == NumberOf(parts[j], 16)
    {
      if !HexGroup(parts[i]) { return None; }
      GroupBound(parts[i]);
      out := out + [NumberOf(parts[i], 16)];
      i := i + 1;
    }
    assert out == Values(parts);
    r := Some(out);
  }

  /** The dotted tail is replaced using the 32-bit operations of the source. */
  method ExpandTail(addr: string) returns (r: Option<string>)
    ensures r == Expand(addr)
  {
    var at := AfterLast(addr, ':');
    var tail := addr[at..];
    if '.' !in tail { return Some(addr); }
    var v4 := Ipv4ToInt(tail);
    if v4.None? { return None; }
    Ipv4ValueBound(tail);
    WordHalves(v4.value);
    r := Some(addr[..at] + (NumeralOf(BitAnd(Shr(v4.value, 16), 0xffff), 16) + ":"
      + NumeralOf(BitAnd(v4.value, 0xffff), 16)));
  }

  method GroupsOfHead(head: string) returns (r: Option<seq<nat>>)
    ensures r == HeadGroups(head)
    ensures r.Some? ==> Groups(r.value)
  {
    var halves := SplitDouble(head);
    if |halves| > 2 { return None; }
    var left := ToGroupList(halves[0]);
    var right := Some([]);
    if |halves| == 2 { right := ToGroupList(halves[1]); }
    if left.None? || right.None? { return None; }
    if |halves| == 2 {
      var missing := 8 - (|left.value| + |right.value|);
      if missing < 1 { return None; }
      r := Some(left.value + Zeros(missing) + right.value);
    } else {
      r := if |left.value| == 8 then left else None;
    }
  }

  /** `ipv6ToBytes`: null exactly on text that is no address, and otherwise the sixteen bytes of its groups. */
  method Ipv6ToBytes(input: string) returns (bytes: array?<nat>)
    ensures bytes == null <==> Ipv6Bytes(input).None?
    ensures bytes != null ==> fresh(bytes) && bytes[..] == Ipv6Bytes(input).value && Octets(bytes[..])
  {
    var head := ExpandTail(Lower(BeforeZone(input)));
    if head.None? { return null; }
    var groups := GroupsOfHead(head.value);
    if groups.None? { return null; }
    bytes := new nat[16];
    var i := 0;
    hide BitAnd, Shr, HeadGroups, Expand, Lower, BeforeZone, Ipv6Groups;
    while i < 8
      invariant i <= 8
      invariant forall k :: 0 <= k < 2 * i ==> bytes[k] == BytesOf(groups.value)[k] < 256
    {
      GroupOctets(groups.value[i]);
      bytes[2 * i] := BitAnd(Shr(groups.value[i], 8), 0xff);
      bytes[2 * i + 1] := BitAnd(groups.value[i], 0xff);
      i := i + 1;
    }
    assert bytes[..] == BytesOf(groups.value);
  }

  method AllZero(bytes: array<nat>, start: nat, end: nat) returns (r: bool)
    requires start <= end <= bytes.Length
    ensures r <==> forall i :: start <= i < end ==> bytes[i] == 0
  {
    var i := start;
    while i < end
      invariant start <= i <= end
      invariant forall j :: start <= j < i ==> bytes[j] == 0
    {
      if bytes[i] != 0 { return false; }
      i := i + 1;
    }
    r := true;
  }

  // ---------------------------------------------------------------------------------------
  // Sixteen bytes as one number
  // ---------------------------------------------------------------------------------------

  lemma {:induction false} BigEndianSplit(a: seq<nat>, c: seq<nat>)
    ensures BigEndian(a + c) == BigEndian(a) * Pow2(8 * |c|) + BigEndian(c)
  {
    if c == [] {
      assert a + c == a;
    } else {
      var n := |c| - 1;
      assert (a + c)[..|a + c| - 1] == a + c[..n];
      BigEndianSplit(a, c[..n]);
      OneMoreOctet(n);
      hide Pow2;
      Factor(BigEndian(a), Pow2(8 * n));
    }
  }

  lemma OneMoreOctet(n: nat)
    ensures Pow2(8 * (n + 1)) == 256 * Pow2(8 * n)
  {
    Pow2Of32();
    Pow2Splits(8, 8 * (n + 1));
  }

  lemma Factor(x: nat, p: nat)
    ensures 256 * (x * p) == x * (256 * p)
  {}

  /** Leading octets are the quotient, trailing octets the remainder. */
  lemma BigEndianTop(b: seq<nat>, k: nat)
    requires Octets(b) && k <= |b|
    ensures BigEndian(b) / Pow2(8 * (|b| - k)) == BigEndian(b[..k])
    ensures BigEndian(b) % Pow2(8 * (|b| - k)) == BigEndian(b[k..])
  {
    assert b == b[..k] + b[k..];
    BigEndianSplit(b[..k], b[k..]);
    BigEndianBound(b[k..]);
    DivUnique(BigEndian(b), Pow2(8 * (|b| - k)), BigEndian(b[..k]), BigEndian(b[k..]));
  }

  lemma {:induction false} BigEndianInjective(a: seq<nat>, b: seq<nat>)
    requires Octets(a) && Octets(b) && |a| == |b| && BigEndian(a) == BigEndian(b)
    ensures a == b
  {
    if a != [] {
      var n := |a| - 1;
      BigEndianInjective(a[..n], b[..n]);
      assert a == a[..n] + [a[n]] && b == b[..n] + [b[n]];
    }
  }

  lemma {:induction false} BigEndianZeros(n: nat)
    ensures BigEndian(Zeros(n)) == 0
  {
    if n > 0 {
      BigEndianZeros(n - 1);
      assert Zeros(n)[..n - 1] == Zeros(n - 1);
    }
  }

  lemma MulMonotone(a: nat, b: nat, p: nat)
    requires a <= b
    ensures a * p <= b * p
  {}

  lemma Regroup(h: nat, q: nat, r: nat, p: nat)
    ensures (h * q + r) * p == h * (p * q) + r * p && (r + 1) * p == r * p + p && q * p == p * q
  {}

  lemma DivDiv(n: nat, p: nat, q: nat)
    requires p > 0 && q > 0
    ensures p * q > 0 && n / (p * q) == n / p / q
  {
    var m, s := n / p, n % p;
    var h, r := m / q, m % q;
    MulMonotone(1, q, p);
    DivDivParts(n, p, q, h, r, s);
  }

  lemma DivDivParts(n: nat, p: nat, q: nat, h: nat, r: nat, s: nat)
    requires n == (h * q + r) * p + s && r < q && s < p && 0 < p * q
    ensures n / (p * q) == h
  {
    Regroup(h, q, r, p);
    MulMonotone(r + 1, q, p);
    DivUnique(n, p * q, h, r * p + s);
  }

  /** The leading `bits` bits of a 128-bit value. */
  function Top(v: nat, bits: nat): int
    requires bits <= 128
  {
    v / Pow2(128 - bits)
  }

  /** A prefix condition is an interval condition. */
  lemma TopIsInterval(v: nat, bits: nat, prefix: nat)
    requires bits <= 128
    ensures Top(v, bits) == prefix <==> prefix * Pow2(128 - bits) <= v < (prefix + 1) * Pow2(128 - bits)
  {
    var p := Pow2(128 - bits);
    assert (prefix + 1) * p == prefix * p + p;
    if prefix * p <= v < prefix * p + p {
      DivUnique(v, p, prefix, v - prefix * p);
    }
  }

  predicate ListedPrefix(v: nat) {
    || Top(v, 10) == 0x3fa // fe80::/10
    || Top(v, 10) == 0x3fb // fec0::/10
    || Top(v, 7) == 0x7e // fc00::/7
    || Top(v, 8) == 0xff // ff00::/8
    || Top(v, 16) == 0x2002 // 2002::/16
    || Top(v, 32) == 0x2001_0db8 // 2001:db8::/32
  }

  /**
   * Which 128-bit values are blocked: the mapped, NAT64 and compatible prefixes are judged by
   * their last 32 bits as IPv4 addresses, every other value by the listed prefixes.
   */
  predicate BlockedValue(v: nat) {
    if Top(v, 96) == 0xffff || Top(v, 96) == 0x64_ff9b * Pow2(64) || Top(v, 96) == 0 then InIntervals(v % TWO32)
    else ListedPrefix(v)
  }

  lemma LeadingOctets(b: seq<nat>)
    requires |b| >= 4
    ensures BigEndian(b[..1]) == b[0] && BigEndian(b[..2]) == 256 * b[0] + b[1]
    ensures BigEndian(b[..4]) == 0x100_0000 * b[0] + 0x1_0000 * b[1] + 0x100 * b[2] + b[3]
  {
    QuadValue(b[0], b[1], b[2], b[3]);
    assert b[..1] == [b[0]] && [b[0]][..0] == [];
    assert b[..2] == [b[0], b[1]] && [b[0], b[1]][..1] == [b[0]];
    assert b[..4] == [b[0], b[1], b[2], b[3]];
  }

  lemma TopOctets(b: seq<nat>)
    requires |b| == 16 && Octets(b)
    ensures var v := BigEndian(b);
      && Top(v, 8) == b[0] && Top(v, 7) == b[0] / 2
      && Top(v, 16) == 256 * b[0] + b[1] && Top(v, 10) == (256 * b[0] + b[1]) / 64
      && Top(v, 32) == 0x100_0000 * b[0] + 0x1_0000 * b[1] + 0x100 * b[2] + b[3]
  {
    hide BigEndian;
    var v := BigEndian(b);
    BigEndianTop(b, 1);
    BigEndianTop(b, 2);
    BigEndianTop(b, 4);
    LeadingOctets(b);
    PartialTops(v);
    hide Pow2, BigEndian;
  }

  /** Tests inside an octet divide the whole octets further. */
  lemma PartialTops(v: nat)
    ensures Top(v, 7) == Top(v, 8) / 2 && Top(v, 10) == Top(v, 16) / 64
  {
    assert Pow2(1) == 2 && Pow2(6) == 64 by { assert Pow2(3) == 8; }
    Pow2Splits(120, 121);
    DivDiv(v, Pow2(120), 2);
    Pow2Splits(112, 118);
    DivDiv(v, Pow2(112), 64);
    hide Pow2;
  }

  lemma EmbeddingPrefixes()
    ensures BigEndian(Zeros(10) + [0xff, 0xff]) == 0xffff && BigEndian(Zeros(12)) == 0
    ensures BigEndian([0, 0x64, 0xff, 0x9b] + Zeros(8)) == 0x64_ff9b * Pow2(64)
  {
    BigEndianZeros(8);
    BigEndianZeros(10);
    BigEndianZeros(12);
    BigEndianSplit(Zeros(10), [0xff, 0xff]);
    BigEndianSplit([0, 0x64, 0xff, 0x9b], Zeros(8));
    QuadValue(0, 0x64, 0xff, 0x9b);
    assert [0xff, 0xff][..1] == [0xff] && [0xff][..0] == [];
    assert BigEndian([0xff]) == 0xff;
  }

  /** Equal-length octet strings agree exactly when their values do. */
  lemma SameValue(a: seq<nat>, b: seq<nat>)
    requires Octets(a) && Octets(b) && |a| == |b|
    ensures a == b <==> BigEndian(a) == BigEndian(b)
  {
    if BigEndian(a) == BigEndian(b) { BigEndianInjective(a, b); }
  }

  lemma TopPrefix(b: seq<nat>, prefix: seq<nat>)
    requires |b| == 16 && Octets(b) && |prefix| == 12 && Octets(prefix)
    ensures Top(BigEndian(b), 96) == BigEndian(prefix) <==> b[..12] == prefix
  {
    BigEndianTop(b, 12);
    SameValue(b[..12], prefix);
    hide BigEndian, Pow2;
  }

  lemma TopEmbedding(b: seq<nat>)
    requires |b| == 16 && Octets(b)
    ensures var v := BigEndian(b);
      && v % TWO32 == BigEndian(b[12..])
      && (Top(v, 96) == 0xffff <==> b[..12] == Zeros(10) + [0xff, 0xff])
      && (Top(v, 96) == 0x64_ff9b * Pow2(64) <==> b[..12] == [0, 0x64, 0xff, 0x9b] + Zeros(8))
      && (Top(v, 96) == 0 <==> b[..12] == Zeros(12))
  {
    hide BigEndian, Pow2, Top;
    BigEndianTop(b, 12);
    Pow2Of32();
    EmbeddingPrefixes();
    var mapped, nat64, compatible := Zeros(10) + [0xff, 0xff], [0, 0x64, 0xff, 0x9b] + Zeros(8), Zeros(12);
    assert Octets(mapped) && Octets(nat64) && Octets(compatible);
    hide Zeros, Octets;
    TopPrefix(b, mapped);
    TopPrefix(b, nat64);
    TopPrefix(b, compatible);
  }

  // ---------------------------------------------------------------------------------------
  // Blocked IPv6 addresses
  // ---------------------------------------------------------------------------------------

  /** The template literal over the last four bytes. */
  function EmbeddedV4(b: seq<nat>): string
    requires |b| == 16
  {
    NumeralOf(b[12], 10) + "." + NumeralOf(b[13], 10) + "." + NumeralOf(b[14], 10) + "." + NumeralOf(b[15], 10)
  }

  /** Printed and parsed again, the last four bytes give their big-endian value. */
  lemma EmbeddedReparses(b: seq<nat>)
    requires |b| == 16 && Octets(b)
    ensures Ipv4Value(EmbeddedV4(b)) == Some(BigEndian(b[12..]))
  {
    DecimalPartOf(b[12]);
    DecimalPartOf(b[13]);
    DecimalPartOf(b[14]);
    DecimalPartOf(b[15]);
    QuadOf(EmbeddedV4(b), NumeralOf(b[12], 10), NumeralOf(b[13], 10), NumeralOf(b[14], 10), NumeralOf(b[15], 10));
    QuadValue(b[12], b[13], b[14], b[15]);
    assert b[12..] == [b[12], b[13], b[14], b[15]];
  }

  /** So the embedded address is judged by the value of the last four bytes. */
  lemma EmbeddedBlocked(b: seq<nat>)
    requires |b| == 16 && Octets(b)
    ensures IsBlockedIpv4(EmbeddedV4(b)) <==> InIntervals(BigEndian(b) % TWO32)
  {
    EmbeddedReparses(b);
    BlockedIffInIntervals(EmbeddedV4(b));
    TopEmbedding(b);
    hide *;
  }

  /** The byte masks of the prefix tests. */
  lemma ByteMasks(x: nat)
    requires x < 256
    ensures BitAnd(x, 0xc0) == x / 64 * 64 && BitAnd(x, 0xfe) == x / 2 * 2
  {
    Pow2Of32();
    assert Pow2(6) == 64 && Pow2(1) == 2 by { assert Pow2(3) == 8; }
    AndMask(x, 6, 8);
    AndMask(x, 1, 8);
    SmallWord(x);
    SmallWord(0xc0);
    SmallWord(0xfe);
    SmallWord(x / 64 * 64);
    SmallWord(x / 2 * 2);
    hide And, Pow2, ToInt32, ToUint32;
  }

  /** Text that does not parse is blocked; an address is blocked exactly when its 128-bit value is. */
  predicate BlockedText6(ip: string) {
    Ipv6Bytes(ip).None? || BlockedValue(BigEndian(Ipv6Bytes(ip).value))
  }

  /** The byte tests of `isBlockedIpv6` in the order of the source. */
  predicate ByteTests(b: seq<nat>)
    requires |b| == 16
  {
    || (b[0] == 0xfe && BitAnd(b[1], 0xc0) == 0x80)
    || (b[0] == 0xfe && BitAnd(b[1], 0xc0) == 0xc0)
    || BitAnd(b[0], 0xfe) == 0xfc
    || b[0] == 0xff
    || (b[0] == 0x20 && b[1] == 0x02)
    || (b[0] == 0x20 && b[1] == 0x01 && b[2] == 0x0d && b[3] == 0xb8)
  }

  lemma TenBits(x: nat, y: nat)
    requires x < 256 && y < 256
    ensures (256 * x + y) / 64 == 4 * x + y / 64
    ensures 256 * x + y == 0x2002 <==> x == 0x20 && y == 0x02
  {}

  lemma FourOctets(x: nat, y: nat, z: nat, w: nat)
    requires x < 256 && y < 256 && z < 256 && w < 256
    ensures 0x100_0000 * x + 0x1_0000 * y + 0x100 * z + w == 0x2001_0db8 <==>
      x == 0x20 && y == 0x01 && z == 0x0d && w == 0xb8
  {}

  lemma ByteTestsArePrefixes(b: seq<nat>)
    requires |b| == 16 && Octets(b)
    ensures var v := BigEndian(b);
      ByteTests(b) <==> ListedPrefix(v)
  {
    hide BitAnd, BigEndian, Top;
    TopOctets(b);
    ByteMasks(b[0]);
    ByteMasks(b[1]);
    TenBits(b[0], b[1]);
    FourOctets(b[0], b[1], b[2], b[3]);
  }

  /** The embedding prefixes, byte by byte. */
  lemma PrefixShapes(b: seq<nat>)
    requires |b| == 16
    ensures b[..12] == Zeros(10) + [0xff, 0xff] <==>
      (forall i :: 0 <= i < 10 ==> b[i] == 0) && b[10] == 0xff && b[11] == 0xff
    ensures b[..12] == [0, 0x64, 0xff, 0x9b] + Zeros(8) <==>
      b[0] == 0 && b[1] == 0x64 && b[2] == 0xff && b[3] == 0x9b && (forall i :: 4 <= i < 12 ==> b[i] == 0)
    ensures b[..12] == Zeros(12) <==> forall i :: 0 <= i < 12 ==> b[i] == 0
  {
    var nat64 := [0, 0x64, 0xff, 0x9b] + Zeros(8);
    assert forall i :: 4 <= i < 12 ==> nat64[i] == 0;
    assert forall i :: 0 <= i < 12 ==> b[..12][i] == b[i];
    if b[..12] == nat64 { assert b[0] == nat64[0] && b[1] == nat64[1] && b[2] == nat64[2] && b[3] == nat64[3]; }
  }

  predicate Embeds(b: seq<nat>)
    requires |b| == 16
  {
    || ((forall i :: 0 <= i < 10 ==> b[i] == 0) && b[10] == 0xff && b[11] == 0xff)
    || (b[0] == 0 && b[1] == 0x64 && b[2] == 0xff && b[3] == 0x9b && forall i :: 4 <= i < 12 ==> b[i] == 0)
    || (forall i :: 0 <= i < 12 ==> b[i] == 0)
  }

  lemma JudgedByBytes(b: seq<nat>)
    requires |b| == 16 && Octets(b)
    ensures BlockedValue(BigEndian(b)) <==> if Embeds(b) then IsBlockedIpv4(EmbeddedV4(b)) else ByteTests(b)
  {
    TopEmbedding(b);
    EmbeddedBlocked(b);
    ByteTestsArePrefixes(b);
    PrefixShapes(b);
    hide Top, BigEndian, Zeros, InIntervals, IsBlockedIpv4, EmbeddedV4, ListedPrefix, ByteTests, Pow2, Octets;
  }

  /** `isBlockedIpv6`: text that is no address, and otherwise exactly the blocked 128-bit values. */
  method IsBlockedIpv6(ip: string) returns (r: bool)
    ensures r <==> BlockedText6(ip)
  {
    var b := Ipv6ToBytes(ip);
    if b == null { return true; }
    JudgedByBytes(b[..]);
    hide BigEndian, IsBlockedIpv4, EmbeddedV4, ByteTests, Ipv6Bytes, BlockedValue;
    var zero10 := AllZero(b, 0, 10);
    if zero10 && b[10] == 0xff && b[11] == 0xff { return IsBlockedIpv4(EmbeddedV4(b[..])); }
    var zero4to12 := AllZero(b, 4, 12);
    if b[0] == 0x00 && b[1] == 0x64 && b[2] == 0xff && b[3] == 0x9b && zero4to12 {
      return IsBlockedIpv4(EmbeddedV4(b[..]));
    }
    var zero12 := AllZero(b, 0, 12);
    if zero12 { return IsBlockedIpv4(EmbeddedV4(b[..])); }
    r := ByteTests(b[..]);
  }

  /**
   * For every IPv4 address, every text of its mapped, compatible or NAT64 form is judged as the
   * IPv4 address itself is, in dotted form.
   */
  lemma EmbeddingsAgree(ip: string, prefix: seq<nat>, a: seq<nat>, quad: string)
    requires prefix == Zeros(10) + [0xff, 0xff] || prefix == Zeros(12) || prefix == [0, 0x64, 0xff, 0x9b] + Zeros(8)
    requires |a| == 4 && Octets(a) && Ipv4Value(quad) == Some(BigEndian(a))
    requires Ipv6Bytes(ip) == Some(prefix + a)
    ensures BlockedText6(ip) <==> IsBlockedIpv4(quad)
  {
    hide Top, BigEndian, InIntervals, IsBlockedIpv4, ListedPrefix, Pow2, Ipv6Bytes, Ipv4Value;
    var b := prefix + a;
    assert Octets(b);
    hide Octets, Zeros;
    assert b[..12] == prefix && b[12..] == a;
    TopEmbedding(b);
    BlockedIffInIntervals(quad);
  }

  // ---------------------------------------------------------------------------------------
  // Vetting a dial target
  // ---------------------------------------------------------------------------------------

  /** An entry of a DNS answer. */
  datatype Address = Address(address: string, family: int)

  datatype Vetted = Vetted(address: string, family: int, port: int)

  datatype Refusal =
    MissingHost | InvalidPort | NotAllowlisted | BlockedLiteral | LookupFailed | Unresolved | BlockedResolution

  datatype Verdict = Pinned(target: Vetted) | Refused(why: Refusal)

  /** `isBlockedIp` */
  predicate BlockedIp(a: Address) {
    if a.family == 6 then BlockedText6(a.address) else IsBlockedIpv4(a.address)
  }

  predicate Admissible(host: string, port: int, allowed: bool) {
    host != "" && 0 < port <= 65_535 && allowed
  }

  /** A literal that is not blocked, or a host with at least one address and no blocked one. */
  predicate Dialable(host: string, literalFamily: int, answer: Option<seq<Address>>) {
    if literalFamily != 0 then !BlockedIp(Address(host, literalFamily))
    else answer.Some? && answer.value != [] && forall i :: 0 <= i < |answer.value| ==> !BlockedIp(answer.value[i])
  }

  /** What a dialable host is pinned to: itself when it is a literal, else the first address of its answer. */
  function PinnedAddress(host: string, literalFamily: int, answer: Option<seq<Address>>): Address
    requires Dialable(host, literalFamily, answer)
  {
    if literalFamily != 0 then Address(host, literalFamily) else answer.value[0]
  }

  lemma PinnedNeverBlocked(host: string, literalFamily: int, answer: Option<seq<Address>>)
    requires Dialable(host, literalFamily, answer)
    ensures !BlockedIp(PinnedAddress(host, literalFamily, answer))
  {
    hide BlockedIp;
  }

  /**
   * `vetDialTarget`. The outcome of the allowlist, of `isIP(host)` (0 when it is no literal) and of
   * the lookup (none when it rejects) are parameters. A pinned target is never blocked, even when
   * the answer mixes public and blocked addresses, and refusal happens only for the listed reasons.
   */
  method VetDialTarget(host: string, port: int, allowed: bool, literalFamily: int, answer: Option<seq<Address>>)
      returns (v: Verdict)
    ensures v.Pinned? <==> Admissible(host, port, allowed) && Dialable(host, literalFamily, answer)
    ensures v.Pinned? ==> v.target.port == port && !BlockedIp(Address(v.target.address, v.target.family))
    ensures v.Pinned? ==> Address(v.target.address, v.target.family) == PinnedAddress(host, literalFamily, answer)
    ensures v == Refused(MissingHost) <==> host == ""
    ensures v == Refused(InvalidPort) <==> host != "" && !(0 < port <= 65_535)
    ensures v == Refused(NotAllowlisted) <==> host != "" && 0 < port <= 65_535 && !allowed
    ensures v == Refused(BlockedLiteral) <==>
      Admissible(host, port, allowed) && literalFamily != 0 && BlockedIp(Address(host, literalFamily))
    ensures v == Refused(LookupFailed) <==> Admissible(host, port, allowed) && literalFamily == 0 && answer.None?
    ensures v == Refused(Unresolved) <==> Admissible(host, port, allowed) && literalFamily == 0 && answer == Some([])
    ensures v == Refused(BlockedResolution) <==>
      Admissible(host, port, allowed) && literalFamily == 0 && answer.Some? && exists a <- answer.value :: BlockedIp(a)
  {
    if host == "" { return Refused(MissingHost); }
    if port <= 0 || port > 65_535 { return Refused(InvalidPort); }
    if !allowed { return Refused(NotAllowlisted); }
    if literalFamily != 0 {
      var blocked := IsBlockedIp(host, literalFamily);
      if blocked { return Refused(BlockedLiteral); }
      return Pinned(Vetted(host, literalFamily, port));
    }
    if answer.None? { return Refused(LookupFailed); }
    if answer.value == [] { return Refused(Unresolved); }
    var i := 0;
    while i < |answer.value|
      invariant i <= |answer.value|
      invariant forall j :: 0 <= j < i ==> !BlockedIp(answer.value[j])
    {
      var a := answer.value[i];
      var blocked := IsBlockedIp(a.address, a.family);
      if blocked { return Refused(BlockedResolution); }
      i := i + 1;
    }
    var chosen := answer.value[0];
    v := Pinned(Vetted(chosen.address, chosen.family, port));
  }

  method IsBlockedIp(ip: string, family: int) returns (r: bool)
    ensures r <==> BlockedIp(Address(ip, family))
  {
    if family == 6 { r := IsBlockedIpv6(ip); } else { r := IsBlockedIpv4(ip); }
  }
}
