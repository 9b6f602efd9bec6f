/**
 * The bitwise operators of JavaScript numbers, written out on integers: operands are taken modulo
 * 2^32, results are signed unless `>>>` makes them unsigned.
 */
module BitWords {

  const TWO32 := 0x1_0000_0000

  function Pow2(k: nat): (p: nat)
    ensures p > 0
  {
    if k == 0 then 1 else 2 * Pow2(k - 1)
  }

  /** Bitwise and of two naturals, from the lowest bit up. */
  function And(a: nat, b: nat): nat {
    if a == 0 || b == 0 then 0
    else (if a % 2 == 1 && b % 2 == 1 then 1 else 0) + 2 * And(a / 2, b / 2)
  }

  /** Bitwise or of two naturals. */
  function Or(a: nat, b: nat): nat {
    if a == 0 then b else if b == 0 then a
    else (if a % 2 == 1 || b % 2 == 1 then 1 else 0) + 2 * Or(a / 2, b / 2)
  }

  function ToUint32(x: int): nat {
    x % TWO32
  }

  function ToInt32(x: int): int {
    var u := ToUint32(x);
    if u >= TWO32 / 2 then u - TWO32 else u
  }

  /** `x << k` */
  function Shl(x: int, k: nat): int
    requires k < 32
  {
    ToInt32(ToUint32(x) * Pow2(k))
  }

  /** `x >>> k` */
  function Shr(x: int, k: nat): nat
    requires k < 32
  {
    ToUint32(x) / Pow2(k)
  }

  /** `x | y` */
  function BitOr(x: int, y: int): int {
    ToInt32(Or(ToUint32(x), ToUint32(y)))
  }

  /** `x & y` */
  function BitAnd(x: int, y: int): int {
    ToInt32(And(ToUint32(x), ToUint32(y)))
  }

  lemma SignedKeepsBits(x: int)
    ensures ToUint32(ToInt32(x)) == ToUint32(x)
  {}

  lemma Word(n: nat)
    requires n < TWO32
    ensures ToUint32(n) == n && ToUint32(ToInt32(n)) == n && Shr(ToInt32(n), 0) == n
  {
    SignedKeepsBits(n);
  }

  lemma SmallWord(n: nat)
    requires n < TWO32 / 2
    ensures ToInt32(n) == n && ToUint32(n) == n
  {}

  /** An or with bits below a shifted word is an addition. */
  lemma {:induction false} OrBelow(n: nat, v: nat, k: nat)
    requires v < Pow2(k)
    ensures Or(n * Pow2(k), v) == n * Pow2(k) + v
    decreases k
  {
    if k > 0 && n > 0 && v > 0 {
      var p := Pow2(k - 1);
      assert n * Pow2(k) == 2 * (n * p);
      OrBelow(n, v / 2, k - 1);
    }
  }

  lemma {:induction false} AndOnes(n: nat, w: nat)
    requires n < Pow2(w)
    ensures And(n, Pow2(w) - 1) == n
    decreases w
  {
    if n > 0 {
      assert (Pow2(w) - 1) / 2 == Pow2(w - 1) - 1 && (Pow2(w) - 1) % 2 == 1;
      AndOnes(n / 2, w - 1);
    }
  }

  lemma Pow2Splits(k: nat, w: nat)
    requires k <= w
    ensures Pow2(w) == Pow2(k) * Pow2(w - k)
    decreases w
  {
    if k < w {
      Pow2Splits(k, w - 1);
      assert Pow2(k) * (2 * Pow2(w - 1 - k)) == 2 * (Pow2(k) * Pow2(w - 1 - k));
    }
  }

  lemma AndDoubled(n: nat, m: nat)
    ensures And(n, 2 * m) == 2 * And(n / 2, m)
  {}

  lemma DoubledQuotient(n: nat, p: nat)
    requires p > 0
    ensures n / (2 * p) * (2 * p) == 2 * (n / 2 / p * p)
  {
    DivTwice(n, p);
    assert n / 2 / p * (2 * p) == 2 * (n / 2 / p * p);
  }

  /** An and with the mask of the bits k..w clears the low k bits and nothing else. */
  lemma {:induction false} AndMask(n: nat, k: nat, w: nat)
    requires k <= w && n < Pow2(w)
    ensures Pow2(k) <= Pow2(w)
    ensures And(n, Pow2(w) - Pow2(k)) == n / Pow2(k) * Pow2(k)
    decreases k
  {
    if k == 0 {
      AndOnes(n, w);
    } else {
      var m := Pow2(w - 1) - Pow2(k - 1);
      AndMask(n / 2, k - 1, w - 1);
      assert Pow2(w) - Pow2(k) == 2 * m;
      AndDoubled(n, m);
      DoubledQuotient(n, Pow2(k - 1));
      hide And;
    }
  }

  lemma DivTwice(n: nat, p: nat)
    requires p > 0
    ensures n / (2 * p) == n / 2 / p
  {
    var q := n / 2 / p;
    var r := n / 2 % p;
    assert n / 2 == q * p + r;
    assert n == 2 * (q * p) + (2 * r + n % 2);
    assert 2 * (q * p) == q * (2 * p);
    DivUnique(n, 2 * p, q, 2 * r + n % 2);
  }

  lemma MulBound(k: int, d: nat)
    ensures k >= 1 ==> k * d >= d
    ensures k <= -1 ==> k * d <= 0 - d
  {
    assert k * d == (k - 1) * d + d == (k + 1) * d - d;
  }

  lemma DivUnique(n: nat, d: nat, q: nat, r: nat)
    requires d > 0 && r < d && n == q * d + r
    ensures n / d == q && n % d == r
  {
    var q', r' := n / d, n % d;
    assert n == q' * d + r';
    assert (q - q') * d == q * d - q' * d;
    MulBound(q - q', d);
  }

  lemma BitAndMask(a: nat, k: nat)
    requires k <= 32 && a < TWO32
    ensures Pow2(32) == TWO32 && Pow2(k) <= TWO32
    ensures BitAnd(a, TWO32 - Pow2(k)) == ToInt32(a / Pow2(k) * Pow2(k))
  {
    hide And, Pow2, ToInt32, ToUint32;
    Pow2Of32();
    AndMask(a, k, 32);
    Word(a);
    Word(TWO32 - Pow2(k));
  }

  /** Two words agree under the mask exactly when they agree above its low bits. */
  lemma SameUnderMask(a: nat, b: nat, k: nat)
    requires k <= 32 && a < TWO32 && b < TWO32
    ensures Pow2(32) == TWO32 && Pow2(k) <= TWO32
    ensures BitAnd(a, TWO32 - Pow2(k)) == BitAnd(b, TWO32 - Pow2(k)) <==> a / Pow2(k) == b / Pow2(k)
  {
    hide BitAnd, And, Pow2, ToInt32, ToUint32;
    BitAndMask(a, k);
    BitAndMask(b, k);
    MaskedBelow(a, Pow2(k));
    MaskedBelow(b, Pow2(k));
  }

  /** Clearing low bits keeps a word a word, and the quotient can be read off again. */
  lemma MaskedBelow(a: nat, p: nat)
    requires a < TWO32 && p > 0
    ensures a / p * p < TWO32 && ToUint32(ToInt32(a / p * p)) == a / p * p && a / p * p / p == a / p
  {
    var m := a / p * p;
    assert m <= a;
    DivUnique(m, p, a / p, 0);
    SignedKeepsBits(m);
  }

  lemma Pow2Of32()
    ensures Pow2(8) == 256 && Pow2(16) == 0x1_0000 && Pow2(32) == TWO32
  {
    assert Pow2(4) == 16;
    assert Pow2(12) == 4096;
    Pow2Splits(16, 32);
  }
}
