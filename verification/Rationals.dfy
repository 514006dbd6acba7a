/** Exact rationals of up to 320 bits as ten words: five limbs of numerator, five of denominator. */
module Rationals {
  import opened Events
  import opened SplitMix
  import Basics
  import Words

  const LIMBS: nat := 5
  const RATIONAL_WORDS: nat := 10

  datatype Rational = Rational(numerator: nat, denominator: nat)

  /** The low `k` limbs of a number, the lowest first. */
  function Limbs(n: nat, k: nat): (r: seq<U64>)
    ensures |r| == k
  {
    if k == 0 then [] else [n % WORDS] + Limbs(n / WORDS, k - 1)
  }

  function ValueOf(limbs: seq<U64>): nat {
    if limbs == [] then 0 else limbs[0] + WORDS * ValueOf(limbs[1..])
  }

  /** 2^(64 k). */
  function Range(k: nat): nat { if k == 0 then 1 else WORDS * Range(k - 1) }

  lemma Below(n: nat, k: nat)
    requires k > 0 && n < Range(k)
    ensures n / WORDS < Range(k - 1)
  {
  }

  /** Limbs give the number back exactly when it fits. */
  lemma {:induction false} LimbsComeBack(n: nat, k: nat)
    ensures ValueOf(Limbs(n, k)) == n <==> n < Range(k)
    ensures ValueOf(Limbs(n, k)) < Range(k)
  {
    if k > 0 {
      LimbsComeBack(n / WORDS, k - 1);
      var rest := Limbs(n / WORDS, k - 1);
      assert Limbs(n, k)[1..] == rest;
      assert n == n % WORDS + WORDS * (n / WORDS);
    }
  }

  predicate Fits(q: Rational) { q.denominator > 0 && q.numerator < Range(LIMBS) && q.denominator < Range(LIMBS) }

  function WriteRational(q: Rational): (r: seq<U64>)
    ensures |r| == RATIONAL_WORDS
  {
    Limbs(q.numerator, LIMBS) + Limbs(q.denominator, LIMBS)
  }

  /** Zero as the plane stores it. */
  const ZERO: Rational := Rational(0, 1)

  /** Reads a rational; a zero denominator is an error. */
  function ReadRational(words: seq<U64>): Option<Rational>
    requires |words| == RATIONAL_WORDS
  {
    var denominator := ValueOf(words[LIMBS..]);
    if denominator == 0 then None else Some(Rational(ValueOf(words[..LIMBS]), denominator))
  }

  /** A rational that fits is read back as it was written, unreduced. */
  lemma RationalComesBack(q: Rational)
    ensures q.denominator > 0 ==> (ReadRational(WriteRational(q)) == Some(q) <==> Fits(q))
  {
    hide Limbs, ValueOf, Range;
    LimbsComeBack(q.numerator, LIMBS);
    LimbsComeBack(q.denominator, LIMBS);
    var words := WriteRational(q);
    assert words[..LIMBS] == Limbs(q.numerator, LIMBS) && words[LIMBS..] == Limbs(q.denominator, LIMBS);
  }

  /** Limb `i` is digit `i` of the number to the base 2^64. */
  lemma {:induction false} LimbIs(n: nat, k: nat, i: nat)
    requires i < k
    ensures Range(i) > 0 && Limbs(n, k)[i] == n / Range(i) % WORDS
    decreases i
  {
    if i > 0 {
      LimbIs(n / WORDS, k - 1, i - 1);
      Basics.DivideTwice(n, WORDS, Range(i - 1));
    }
  }

  lemma RangeIsPower(k: nat)
    ensures Range(k) == Words.Pow2(64 * k)
    decreases k
  {
    if k > 0 {
      RangeIsPower(k - 1);
      PowersMultiply(64, 64 * (k - 1));
      WordsIsPower();
    }
  }

  /** A rational fits exactly if numerator and denominator are below 2^320. */
  lemma FitsIs320Bits(q: Rational)
    ensures Fits(q) <==> q.denominator > 0 && q.numerator < Words.Pow2(320) && q.denominator < Words.Pow2(320)
  {
    hide Range;
    RangeIsPower(5);
  }

  /** The numerator's digits to the base 2^64 come first, the lowest first, then the denominator's. */
  lemma WrittenDigits(q: Rational, i: nat)
    requires i < 5
    ensures Words.Pow2(64 * i) > 0 && Words.Pow2(64) > 0
    ensures WriteRational(q)[i] == q.numerator / Words.Pow2(64 * i) % Words.Pow2(64)
    ensures WriteRational(q)[5 + i] == q.denominator / Words.Pow2(64 * i) % Words.Pow2(64)
  {
    hide Limbs, Range, Words.Pow2;
    LimbIs(q.numerator, 5, i);
    LimbIs(q.denominator, 5, i);
    RangeIsPower(i);
    WordsIsPower();
  }
}
