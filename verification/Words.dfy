/** The bytes of an unsigned word, bitwise operations byte by byte, and the order bytes give. */
module Words {

  type U8 = x: int | 0 <= x < 256

  /** `x >> 8 * k`. */
  function Shift(x: nat, k: nat): nat {
    if k == 0 then x else Shift(x / 256, k - 1)
  }

  /** Byte `k` of a word, the lowest first. */
  function Byte(x: nat, k: nat): U8 { Shift(x, k) % 256 }

  function Pow256(k: nat): (r: nat)
    ensures r > 0
  {
    if k == 0 then 1 else 256 * Pow256(k - 1)
  }

  /** The number that the low `k` bytes spell. */
  function Low(x: nat, k: nat): nat {
    if k == 0 then 0
    else
      assert Byte(x, k - 1) * Pow256(k - 1) >= 0;
      Low(x, k - 1) + Byte(x, k - 1) * Pow256(k - 1)
  }

  lemma {:induction false} ShiftStep(x: nat, k: nat)
    ensures Shift(x, k + 1) == Shift(x, k) / 256
  {
    if k > 0 {
      ShiftStep(x / 256, k - 1);
    }
  }

  lemma {:induction false} ShiftZero(k: nat)
    ensures Shift(0, k) == 0
  {
    if k > 0 {
      ShiftZero(k - 1);
    }
  }

  lemma SplitTop(high: nat, byte: U8, p: nat)
    ensures (256 * high + byte) * p == high * (256 * p) + byte * p
    ensures byte * p <= 255 * p
  {
    assert 255 * p == byte * p + (255 - byte) * p;
  }

  /** A word is its low bytes plus what lies above them. */
  lemma {:induction false} LowAndShift(x: nat, k: nat)
    ensures x == Low(x, k) + Shift(x, k) * Pow256(k)
    ensures Low(x, k) < Pow256(k)
  {
    if k > 0 {
      LowAndShift(x, k - 1);
      ShiftStep(x, k - 1);
      var q, p := Shift(x, k - 1), Pow256(k - 1);
      SplitTop(q / 256, q % 256, p);
    }
  }

  /** A 64-bit word is its eight bytes. */
  lemma LowIsAll(x: nat)
    requires x < 0x1_0000_0000_0000_0000
    ensures Low(x, 8) == x
  {
    LowAndShift(x, 8);
    assert Pow256(8) == 0x1_0000_0000_0000_0000;
  }

  /** Low bytes compare from the highest down. */
  lemma LowOrder(x: nat, y: nat, k: nat)
    requires k > 0
    ensures Low(x, k) < Low(y, k) <==>
            Byte(x, k - 1) < Byte(y, k - 1) || (Byte(x, k - 1) == Byte(y, k - 1) && Low(x, k - 1) < Low(y, k - 1))
    ensures Low(x, k) == Low(y, k) <==> Byte(x, k - 1) == Byte(y, k - 1) && Low(x, k - 1) == Low(y, k - 1)
  {
    LowAndShift(x, k - 1);
    LowAndShift(y, k - 1);
    Digits(Byte(x, k - 1), Low(x, k - 1), Byte(y, k - 1), Low(y, k - 1), Pow256(k - 1));
  }

  lemma Digits(a: nat, low: nat, b: nat, low': nat, p: nat)
    requires low < p && low' < p
    ensures low + a * p < low' + b * p <==> a < b || (a == b && low < low')
    ensures low + a * p == low' + b * p <==> a == b && low == low'
  {
    if a < b {
      OneMore(a, b, p);
    } else if b < a {
      OneMore(b, a, p);
    }
  }

  lemma Scaled(a: nat, b: nat, p: nat)
    requires a <= b
    ensures a * p <= b * p
  {
    assert b * p == a * p + (b - a) * p;
  }

  lemma OneMore(a: nat, b: nat, p: nat)
    requires a < b
    ensures a * p + p <= b * p
  {
    assert b * p == a * p + p + (b - a - 1) * p;
  }

  /** Exclusive or of the low `n` bits. */
  function XorBits(a: nat, b: nat, n: nat): nat
    decreases n
  {
    if n == 0 then 0 else (a + b) % 2 + 2 * XorBits(a / 2, b / 2, n - 1)
  }

  /** Inclusive or of the low `n` bits. */
  function OrBits(a: nat, b: nat, n: nat): nat
    decreases n
  {
    if n == 0 then 0 else (if a % 2 == 1 || b % 2 == 1 then 1 else 0) + 2 * OrBits(a / 2, b / 2, n - 1)
  }

  function Pow2(n: nat): nat { if n == 0 then 1 else 2 * Pow2(n - 1) }

  /** A bit and what lies above it. */
  lemma HalfFits(a: nat, n: nat)
    requires n > 0 && a < Pow2(n)
    ensures a / 2 < Pow2(n - 1) && a == a % 2 + 2 * (a / 2)
  {
  }

  lemma BitZero(bit: nat, rest: nat, below: nat)
    requires bit < 2 && rest < below
    ensures bit + 2 * rest == 0 <==> bit == 0 && rest == 0
    ensures bit + 2 * rest < 2 * below
  {
  }

  lemma ParityDiffers(a: nat, b: nat)
    ensures (a + b) % 2 == 0 <==> a % 2 == b % 2
  {
  }

  lemma {:induction false} XorZero(a: nat, b: nat, n: nat)
    requires a < Pow2(n) && b < Pow2(n)
    ensures XorBits(a, b, n) == 0 <==> a == b
    ensures XorBits(a, b, n) < Pow2(n)
    decreases n
  {
    if n > 0 {
      HalfFits(a, n);
      HalfFits(b, n);
      XorZero(a / 2, b / 2, n - 1);
      ParityDiffers(a, b);
      BitZero((a + b) % 2, XorBits(a / 2, b / 2, n - 1), Pow2(n - 1));
    }
  }

  lemma {:induction false} OrZero(a: nat, b: nat, n: nat)
    requires a < Pow2(n) && b < Pow2(n)
    ensures OrBits(a, b, n) == 0 <==> a == 0 && b == 0
    ensures OrBits(a, b, n) < Pow2(n)
    decreases n
  {
    if n > 0 {
      HalfFits(a, n);
      HalfFits(b, n);
      OrZero(a / 2, b / 2, n - 1);
      BitZero(if a % 2 == 1 || b % 2 == 1 then 1 else 0, OrBits(a / 2, b / 2, n - 1), Pow2(n - 1));
    }
  }

  /** One byte of `mask | (x ^ y)`. */
  function DifferenceOf(mask: U8, x: U8, y: U8): (r: U8)
    ensures r == 0 <==> mask == 0 && x == y
  {
    assert Pow2(8) == 256;
    XorZero(x, y, 8);
    OrZero(mask, XorBits(x, y, 8), 8);
    OrBits(mask, XorBits(x, y, 8), 8)
  }

  /** `mask | (x ^ y)` on words of `n` bytes. */
  function AddDifference(mask: nat, x: nat, y: nat, n: nat): nat
    decreases n
  {
    if n == 0 then 0
    else DifferenceOf(mask % 256, x % 256, y % 256) + 256 * AddDifference(mask / 256, x / 256, y / 256, n - 1)
  }

  lemma LowByte(low: U8, high: nat)
    ensures (low + 256 * high) % 256 == low && (low + 256 * high) / 256 == high
  {
  }

  lemma ByteAbove(x: nat, k: nat)
    requires k > 0
    ensures Byte(x, k) == Byte(x / 256, k - 1)
  {
  }

  /** A byte of a difference mask is zero exactly when no word it covers differs there. */
  lemma {:induction false} DifferenceByte(mask: nat, x: nat, y: nat, n: nat, k: nat)
    requires k < n
    ensures Byte(AddDifference(mask, x, y, n), k) == 0 <==> Byte(mask, k) == 0 && Byte(x, k) == Byte(y, k)
    decreases n
  {
    hide DifferenceOf;
    var low := DifferenceOf(mask % 256, x % 256, y % 256);
    var high := AddDifference(mask / 256, x / 256, y / 256, n - 1);
    LowByte(low, high);
    if k > 0 {
      ByteAbove(low + 256 * high, k);
      ByteAbove(mask, k);
      ByteAbove(x, k);
      ByteAbove(y, k);
      DifferenceByte(mask / 256, x / 256, y / 256, n - 1, k - 1);
    }
  }
}
