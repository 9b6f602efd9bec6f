/** Separated text and numerals, as the address parsers read and print them. */
module AddressText {

  /** A character in front of split text starts a new part or extends the first one. */
  function Before(d: char, parts: seq<string>, c: char): (r: seq<string>)
    requires parts != []
    ensures r != []
  {
    if d == c then [""] + parts else [[d] + parts[0]] + parts[1..]
  }

  /** `s.split(c)` for a one-character separator. */
  function Split(s: string, c: char): (parts: seq<string>)
    ensures parts != []
  {
    if s == [] then [""]
    else Before(s[0], Split(s[1..], c), c)
  }

  /** `parts.join(c)`; no part at all gives the empty text. */
  function Join(parts: seq<string>, c: char): string {
    if parts == [] then ""
    else if |parts| == 1 then parts[0]
    else parts[0] + [c] + Join(parts[1..], c)
  }

  predicate Free(s: string, c: char) {
    c !in s
  }

  predicate AllFree(parts: seq<string>, c: char) {
    forall i :: 0 <= i < |parts| ==> Free(parts[i], c)
  }

  lemma {:induction false} SplitFree(s: string, c: char)
    requires Free(s, c)
    ensures Split(s, c) == [s]
  {
    if s != [] {
      SplitFree(s[1..], c);
      assert [s[0]] + s[1..] == s;
    }
  }

  /** Splitting a text at one of its separators splits both sides. */
  lemma {:induction false} SplitAt(x: string, y: string, c: char)
    ensures Split(x + [c] + y, c) == Split(x, c) + Split(y, c)
  {
    var s := x + [c] + y;
    if x == [] {
      assert s[1..] == y;
    } else {
      SplitAt(x[1..], y, c);
      assert s[1..] == x[1..] + [c] + y;
      BeforeBoth(x[0], Split(x[1..], c), Split(y, c), c);
      hide Before;
    }
  }

  lemma BeforeBoth(d: char, a: seq<string>, b: seq<string>, c: char)
    requires a != []
    ensures Before(d, a + b, c) == Before(d, a, c) + b
  {
    assert (a + b)[0] == a[0] && (a + b)[1..] == a[1..] + b;
  }

  lemma {:induction false} SplitJoin(parts: seq<string>, c: char)
    requires parts != [] && AllFree(parts, c)
    ensures Split(Join(parts, c), c) == parts
  {
    SplitFree(parts[0], c);
    if |parts| > 1 {
      SplitJoin(parts[1..], c);
      SplitAt(parts[0], Join(parts[1..], c), c);
      assert [parts[0]] + parts[1..] == parts;
    }
  }

  lemma {:induction false} JoinSplit(s: string, c: char)
    ensures Join(Split(s, c), c) == s && AllFree(Split(s, c), c)
  {
    if s != [] {
      JoinSplit(s[1..], c);
      var rest := Split(s[1..], c);
      if s[0] == c {
        assert ([""] + rest)[1..] == rest;
      } else {
        var parts := [[s[0]] + rest[0]] + rest[1..];
        if |rest| > 1 {
          assert parts[1..] == rest[1..];
          assert Join(parts, c) == [s[0]] + rest[0] + [c] + Join(rest[1..], c);
        }
      }
    }
  }

  /** One more part at the end. */
  lemma {:induction false} JoinSnoc(parts: seq<string>, last: string, c: char)
    requires parts != []
    ensures Join(parts + [last], c) == Join(parts, c) + [c] + last
  {
    if |parts| == 1 {
      assert (parts + [last])[1..] == [last];
    } else {
      JoinSnoc(parts[1..], last, c);
      assert (parts + [last])[1..] == parts[1..] + [last];
      assert parts[0] + [c] + (Join(parts[1..], c) + [c] + last) == Join(parts, c) + [c] + last;
    }
  }

  // ---------------------------------------------------------------------------------------
  // Numerals
  // ---------------------------------------------------------------------------------------

  predicate IsDigit(c: char) {
    '0' <= c <= '9'
  }

  predicate IsHex(c: char) {
    IsDigit(c) || 'a' <= c <= 'f'
  }

  function DigitValue(c: char): (v: nat)
    requires IsHex(c)
    ensures v < 16 && (IsDigit(c) ==> v < 10)
  {
    if IsDigit(c) then c as int - '0' as int else c as int - 'a' as int + 10
  }

  function DigitText(v: nat): (c: char)
    requires v < 16
    ensures IsHex(c) && DigitValue(c) == v && (v < 10 ==> IsDigit(c))
  {
    if v < 10 then ('0' as int + v) as char else ('a' as int + v - 10) as char
  }

  /** The regular expression `^\d{1,3}$`. */
  predicate DecimalPart(s: string) {
    1 <= |s| <= 3 && forall i :: 0 <= i < |s| ==> IsDigit(s[i])
  }

  /** The regular expression `^[0-9a-f]{1,4}$`. */
  predicate HexGroup(s: string) {
    1 <= |s| <= 4 && forall i :: 0 <= i < |s| ==> IsHex(s[i])
  }

  predicate Numeral(s: string, base: nat) {
    (base == 10 || base == 16) && forall i :: 0 <= i < |s| ==> IsHex(s[i]) && DigitValue(s[i]) < base
  }

  /** `Number(s)` for base 10, `parseInt(s, 16)` for base 16. */
  function NumberOf(s: string, base: nat): nat
    requires Numeral(s, base)
  {
    if s == [] then 0 else base * NumberOf(s[..|s| - 1], base) + DigitValue(s[|s| - 1])
  }

  /** `n.toString(base)` */
  function NumeralOf(n: nat, base: nat): (s: string)
    requires base == 10 || base == 16
    ensures s != [] && Numeral(s, base)
    ensures base == 10 ==> forall i :: 0 <= i < |s| ==> IsDigit(s[i])
  {
    if n < base then [DigitText(n)] else NumeralOf(n / base, base) + [DigitText(n % base)]
  }

  lemma {:induction false} NumeralRoundTrip(n: nat, base: nat)
    requires base == 10 || base == 16
    ensures NumberOf(NumeralOf(n, base), base) == n
  {
    if n >= base {
      NumeralRoundTrip(n / base, base);
      var s := NumeralOf(n, base);
      assert s[..|s| - 1] == NumeralOf(n / base, base);
    } else {
      assert NumeralOf(n, base)[..0] == [];
    }
  }

  function Power(base: nat, k: nat): nat {
    if k == 0 then 1 else base * Power(base, k - 1)
  }

  lemma {:induction false} NumeralLength(n: nat, base: nat, k: nat)
    requires (base == 10 || base == 16) && k > 0 && n < Power(base, k)
    ensures |NumeralOf(n, base)| <= k
  {
    if n >= base { NumeralLength(n / base, base, k - 1); }
  }

  lemma HexGroupOf(n: nat)
    requires n < 0x1_0000
    ensures HexGroup(NumeralOf(n, 16)) && Numeral(NumeralOf(n, 16), 16) && NumberOf(NumeralOf(n, 16), 16) == n
  {
    NumeralRoundTrip(n, 16);
    assert Power(16, 2) == 256;
    assert Power(16, 4) == 65536;
    NumeralLength(n, 16, 4);
  }

  lemma DecimalPartOf(n: nat)
    requires n < 256
    ensures DecimalPart(NumeralOf(n, 10)) && NumberOf(NumeralOf(n, 10), 10) == n
  {
    NumeralRoundTrip(n, 10);
    assert Power(10, 3) == 1000;
    NumeralLength(n, 10, 3);
  }

  lemma {:induction false} NumeralBound(s: string, base: nat)
    requires Numeral(s, base)
    ensures NumberOf(s, base) < Power(base, |s|)
  {
    if s != [] { NumeralBound(s[..|s| - 1], base); }
  }

  lemma GroupBound(s: string)
    requires HexGroup(s)
    ensures Numeral(s, 16) && NumberOf(s, 16) < 0x1_0000
  {
    NumeralBound(s, 16);
    assert Power(16, 1) == 16 && Power(16, 2) == 256;
    assert Power(16, 3) == 4096 && Power(16, 4) == 65536;
  }
}
