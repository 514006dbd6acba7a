/** The 64-bit mixer behind every seeded derivation, and its inverse. */
module SplitMix {
  import opened Events
  import opened Words

  const WORDS: nat := 0x1_0000_0000_0000_0000

  /** Bit `i` of a word, the lowest first. */
  predicate Bit(x: nat, i: nat) {
    if i == 0 then x % 2 == 1 else Bit(x / 2, i - 1)
  }

  /** `x >> k`. */
  function ShiftRight(x: nat, k: nat): nat {
    if k == 0 then x else ShiftRight(x / 2, k - 1)
  }

  lemma {:induction false} BitOfShift(x: nat, k: nat, i: nat)
    ensures Bit(ShiftRight(x, k), i) == Bit(x, i + k)
    decreases k
  {
    if k > 0 {
      BitOfShift(x / 2, k - 1, i);
    }
  }

  lemma BitStep(x: nat, i: nat)
    ensures Bit(x, i) == if i == 0 then x % 2 == 1 else Bit(x / 2, i - 1)
  {
  }

  lemma XorStep(a: nat, b: nat, n: nat)
    requires n > 0
    ensures XorBits(a, b, n) == (a + b) % 2 + 2 * XorBits(a / 2, b / 2, n - 1)
  {
  }

  lemma {:induction false} BitOfXor(a: nat, b: nat, n: nat, i: nat)
    requires i < n
    ensures Bit(XorBits(a, b, n), i) == (Bit(a, i) != Bit(b, i))
    decreases n
  {
    hide Bit, XorBits;
    XorStep(a, b, n);
    LowBit((a + b) % 2, XorBits(a / 2, b / 2, n - 1));
    ParityDiffers(a, b);
    BitStep(a, i);
    BitStep(b, i);
    BitStep(XorBits(a, b, n), i);
    if i > 0 {
      BitOfXor(a / 2, b / 2, n - 1, i - 1);
    }
  }

  lemma LowBit(low: nat, high: nat)
    requires low < 2
    ensures (low + 2 * high) % 2 == low && (low + 2 * high) / 2 == high
  {
  }

  /** A word has no bits above its width. */
  lemma {:induction false} NoBitAbove(x: nat, n: nat, i: nat)
    requires x < Pow2(n) && n <= i
    ensures !Bit(x, i)
    decreases i
  {
    if i > 0 {
      NoBitAbove(x / 2, if n == 0 then 0 else n - 1, i - 1);
    }
  }

  /** Words with the same bits are the same. */
  lemma {:induction false} SameBits(a: nat, b: nat, n: nat)
    requires a < Pow2(n) && b < Pow2(n)
    requires forall i | 0 <= i < n :: Bit(a, i) == Bit(b, i)
    ensures a == b
  {
    if n > 0 {
      assert Bit(a, 0) == Bit(b, 0);
      forall i | 0 <= i < n - 1
        ensures Bit(a / 2, i) == Bit(b / 2, i)
      {
        assert Bit(a, i + 1) == Bit(b, i + 1);
      }
      SameBits(a / 2, b / 2, n - 1);
    }
  }

  lemma {:induction false} XorFits(a: nat, b: nat, n: nat)
    ensures XorBits(a, b, n) < Pow2(n)
    decreases n
  {
    if n > 0 {
      XorFits(a / 2, b / 2, n - 1);
    }
  }

  lemma {:induction false} PowersMultiply(a: nat, b: nat)
    ensures Pow2(a + b) == Pow2(a) * Pow2(b)
  {
    if a > 0 {
      PowersMultiply(a - 1, b);
      Associates(2, Pow2(a - 1), Pow2(b));
    }
  }

  lemma Associates(a: nat, b: nat, c: nat)
    ensures a * (b * c) == a * b * c
  {
  }

  lemma WordsIsPower()
    ensures Pow2(64) == WORDS
  {
    assert Pow2(8) == 256;
    PowersMultiply(8, 8);
    PowersMultiply(16, 16);
    PowersMultiply(32, 32);
  }

  /** `a ^ b` on 64-bit words. */
  function Xor(a: U64, b: U64): U64 {
    XorFits(a, b, 64);
    WordsIsPower();
    XorBits(a, b, 64)
  }

  lemma BitOfWordXor(a: U64, b: U64, i: nat)
    ensures Bit(Xor(a, b), i) == (Bit(a, i) != Bit(b, i))
  {
    hide XorBits, Bit, Pow2;
    if i < 64 {
      BitOfXor(a, b, 64, i);
    } else {
      WordsIsPower();
      NoBitAbove(Xor(a, b), 64, i);
      NoBitAbove(a, 64, i);
      NoBitAbove(b, 64, i);
    }
  }

  lemma SameWord(a: U64, b: U64)
    requires forall i | 0 <= i < 64 :: Bit(a, i) == Bit(b, i)
    ensures a == b
  {
    hide Bit, Pow2;
    WordsIsPower();
    SameBits(a, b, 64);
  }

  /** Exclusive or undoes itself. */
  lemma XorUndoes(a: U64, b: U64)
    ensures Xor(a, Xor(a, b)) == b
  {
    hide Bit, Xor;
    forall i | 0 <= i < 64
      ensures Bit(Xor(a, Xor(a, b)), i) == Bit(b, i)
    {
      BitOfWordXor(a, Xor(a, b), i);
      BitOfWordXor(a, b, i);
    }
    SameWord(Xor(a, Xor(a, b)), b);
  }

  lemma {:induction false} ShiftLowers(x: nat, k: nat)
    ensures ShiftRight(x, k) <= x
  {
    if k > 0 {
      ShiftLowers(x / 2, k - 1);
    }
  }

  /** `x ^ (x >> k)`. */
  function XorShift(x: U64, k: nat): U64 {
    ShiftLowers(x, k);
    Xor(x, ShiftRight(x, k))
  }

  /** `y ^ (y >> k) ^ (y >> 2 * k)`. */
  function UnXorShift(y: U64, k: nat): U64 {
    ShiftLowers(y, k);
    ShiftLowers(y, 2 * k);
    Xor(Xor(y, ShiftRight(y, k)), ShiftRight(y, 2 * k))
  }

  lemma BitOfXorShift(x: U64, k: nat, i: nat)
    ensures Bit(XorShift(x, k), i) == (Bit(x, i) != Bit(x, i + k))
  {
    hide Bit, Xor, ShiftRight;
    ShiftLowers(x, k);
    BitOfWordXor(x, ShiftRight(x, k), i);
    BitOfShift(x, k, i);
  }

  lemma BitOfUnXorShift(y: U64, k: nat, i: nat)
    ensures Bit(UnXorShift(y, k), i) == ((Bit(y, i) != Bit(y, i + k)) != Bit(y, i + 2 * k))
  {
    hide Bit, Xor, ShiftRight;
    ShiftLowers(y, k);
    ShiftLowers(y, 2 * k);
    BitOfWordXor(Xor(y, ShiftRight(y, k)), ShiftRight(y, 2 * k), i);
    BitOfWordXor(y, ShiftRight(y, k), i);
    BitOfShift(y, k, i);
    BitOfShift(y, 2 * k, i);
  }

  /** Three shifts leave nothing of a word, so the two are inverse to each other. */
  lemma XorShiftInverse(x: U64, k: nat)
    requires 3 * k >= 64
    ensures UnXorShift(XorShift(x, k), k) == x
    ensures XorShift(UnXorShift(x, k), k) == x
  {
    hide Bit, XorShift, UnXorShift, Pow2;
    WordsIsPower();
    forall i | 0 <= i < 64
      ensures Bit(UnXorShift(XorShift(x, k), k), i) == Bit(x, i)
      ensures Bit(XorShift(UnXorShift(x, k), k), i) == Bit(x, i)
    {
      BitOfUnXorShift(XorShift(x, k), k, i);
      BitOfXorShift(x, k, i);
      BitOfXorShift(x, k, i + k);
      BitOfXorShift(x, k, i + 2 * k);
      BitOfXorShift(UnXorShift(x, k), k, i);
      BitOfUnXorShift(x, k, i);
      BitOfUnXorShift(x, k, i + k);
      NoBitAbove(x, 64, i + 3 * k);
    }
    SameWord(UnXorShift(XorShift(x, k), k), x);
    SameWord(XorShift(UnXorShift(x, k), k), x);
  }

  function WrappingMul(x: U64, c: U64): U64 { x * c % WORDS }

  lemma WholeTurns(q: nat, rest: nat)
    ensures (q * WORDS + rest) % WORDS == rest % WORDS
  {
  }

  lemma Splits(q: nat, rest: nat, d: nat)
    ensures (q * WORDS + rest) * d == q * d * WORDS + rest * d
  {
  }

  /** Reducing before or after a multiplication is the same. */
  lemma ReduceFirst(a: nat, d: nat)
    ensures (a % WORDS) * d % WORDS == a * d % WORDS
  {
    var q, rest := a / WORDS, a % WORDS;
    assert a == q * WORDS + rest;
    Splits(q, rest, d);
    WholeTurns(q * d, rest * d);
  }

  /** Multiplying by a number and by its inverse modulo 2^64. */
  lemma MulInverse(x: U64, c: U64, d: U64, turns: nat)
    requires c * d == turns * WORDS + 1
    ensures WrappingMul(WrappingMul(x, c), d) == x
  {
    ReduceFirst(x * c, d);
    Regroup(x, c, d, turns);
    WholeTurns(x * turns, x);
  }

  lemma Regroup(x: nat, c: nat, d: nat, turns: nat)
    requires c * d == turns * WORDS + 1
    ensures x * c * d == x * turns * WORDS + x
  {
    assert x * c * d == x * (c * d);
    assert x * (turns * WORDS + 1) == x * turns * WORDS + x;
  }

  const GAMMA: U64 := 0x9e37_79b9_7f4a_7c15
  const FIRST: U64 := 0xbf58_476d_1ce4_e5b9
  const SECOND: U64 := 0x94d0_49bb_1331_11eb
  const FIRST_INVERSE: U64 := 0x96de_1b17_3f11_9089
  const SECOND_INVERSE: U64 := 0x3196_42b2_d24d_8ec3

  /** The output function. */
  function Mix(value: U64): U64 {
    var a := (value + GAMMA) % WORDS;
    var b := WrappingMul(XorShift(a, 30), FIRST);
    var c := WrappingMul(XorShift(b, 27), SECOND);
    XorShift(c, 31)
  }

  function Unmix(value: U64): U64 {
    var c := UnXorShift(value, 31);
    var b := UnXorShift(WrappingMul(c, SECOND_INVERSE), 27);
    var a := UnXorShift(WrappingMul(b, FIRST_INVERSE), 30);
    (a + WORDS - GAMMA) % WORDS
  }

  /** The mixer is a bijection on 64-bit words: `Unmix` is its inverse on both sides. */
  lemma MixIsBijection(x: U64)
    ensures Unmix(Mix(x)) == x
    ensures Mix(Unmix(x)) == x
  {
    hide XorShift, UnXorShift, WrappingMul;
    var a := (x + GAMMA) % WORDS;
    var b := WrappingMul(XorShift(a, 30), FIRST);
    var c := WrappingMul(XorShift(b, 27), SECOND);
    XorShiftInverse(a, 30);
    XorShiftInverse(b, 27);
    XorShiftInverse(c, 31);
    Factors(XorShift(a, 30), XorShift(b, 27));
    var c' := UnXorShift(x, 31);
    var b' := UnXorShift(WrappingMul(c', SECOND_INVERSE), 27);
    var a' := UnXorShift(WrappingMul(b', FIRST_INVERSE), 30);
    XorShiftInverse(x, 31);
    XorShiftInverse(WrappingMul(c', SECOND_INVERSE), 27);
    XorShiftInverse(WrappingMul(b', FIRST_INVERSE), 30);
    Factors(b', c');
  }

  lemma Factors(x: U64, y: U64)
    ensures WrappingMul(WrappingMul(x, FIRST), FIRST_INVERSE) == x
    ensures WrappingMul(WrappingMul(x, FIRST_INVERSE), FIRST) == x
    ensures WrappingMul(WrappingMul(y, SECOND), SECOND_INVERSE) == y
    ensures WrappingMul(WrappingMul(y, SECOND_INVERSE), SECOND) == y
  {
    hide WrappingMul;
    MulInverse(x, FIRST, FIRST_INVERSE, 0x70c3_bca7_8f27_f46c);
    MulInverse(x, FIRST_INVERSE, FIRST, 0x70c3_bca7_8f27_f46c);
    MulInverse(y, SECOND, SECOND_INVERSE, 0x1cd3_36ed_a85f_1453);
    MulInverse(y, SECOND_INVERSE, SECOND, 0x1cd3_36ed_a85f_1453);
  }
}
