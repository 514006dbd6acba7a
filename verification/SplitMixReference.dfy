/** Outputs of SplitMix64, worked out digit by digit. */
module SplitMixReference {
  import opened Events
  import opened Words
  import opened SplitMix

  function Differ(i: nat, j: nat): nat { if i == j then 0 else 1 }

  lemma XorByBit(q: nat, i: nat, r: nat, j: nat, n: nat)
    requires i < 2 && j < 2 && n > 0
    ensures XorBits(2 * q + i, 2 * r + j, n) == Differ(i, j) + 2 * XorBits(q, r, n - 1)
  {
    assert (2 * q + i) / 2 == q && (2 * r + j) / 2 == r;
    assert (2 * q + i + (2 * r + j)) % 2 == (i + j) % 2;
  }

  /** A hexadecimal digit, given by its bits. */
  lemma XorByDigit(q: nat, a: nat, b: nat, c: nat, d: nat, r: nat, e: nat, f: nat, g: nat, h: nat, n: nat)
    requires a < 2 && b < 2 && c < 2 && d < 2 && e < 2 && f < 2 && g < 2 && h < 2 && n >= 4
    ensures XorBits(16 * q + 8 * a + 4 * b + 2 * c + d, 16 * r + 8 * e + 4 * f + 2 * g + h, n) ==
            8 * Differ(a, e) + 4 * Differ(b, f) + 2 * Differ(c, g) + Differ(d, h) + 16 * XorBits(q, r, n - 4)
  {
    hide XorBits;
    XorByBit(8 * q + 4 * a + 2 * b + c, d, 8 * r + 4 * e + 2 * f + g, h, n);
    XorByBit(4 * q + 2 * a + b, c, 4 * r + 2 * e + f, g, n - 1);
    XorByBit(2 * q + a, b, 2 * r + e, f, n - 2);
    XorByBit(q, a, r, e, n - 3);
  }

  lemma NoBits(a: nat, b: nat)
    ensures XorBits(a, b, 0) == 0
  {
  }

  lemma {:induction false} PowerIsPositive(k: nat)
    ensures Pow2(k) > 0
  {
    if k > 0 {
      PowerIsPositive(k - 1);
    }
  }

  /** Shifting right takes away whole halves. */
  lemma {:induction false} ShiftTells(x: nat, k: nat)
    ensures ShiftRight(x, k) * Pow2(k) <= x < (ShiftRight(x, k) + 1) * Pow2(k)
  {
    if k > 0 {
      ShiftTells(x / 2, k - 1);
      Halves(x, ShiftRight(x / 2, k - 1), Pow2(k - 1));
    }
  }

  lemma Halves(x: nat, y: nat, p: nat)
    requires y * p <= x / 2 < (y + 1) * p
    ensures y * (2 * p) <= x < (y + 1) * (2 * p)
  {
    assert y * (2 * p) == 2 * (y * p) && (y + 1) * (2 * p) == 2 * ((y + 1) * p);
  }

  /** A word between two multiples of a power shifts to the lower one. */
  lemma ShiftIs(x: nat, k: nat, y: nat)
    requires y * Pow2(k) <= x < (y + 1) * Pow2(k)
    ensures ShiftRight(x, k) == y
  {
    ShiftTells(x, k);
    PowerIsPositive(k);
    var z, p := ShiftRight(x, k), Pow2(k);
    if z < y {
      Scaled(z + 1, y, p);
    } else if y < z {
      Scaled(y + 1, z, p);
    }
  }

  /** The powers that the shifts divide by. */
  lemma ShiftPowers()
    ensures Pow2(27) == 0x800_0000 && Pow2(30) == 0x4000_0000 && Pow2(31) == 0x8000_0000
  {
    assert Pow2(3) == 8;
    PowersMultiply(3, 3);
    PowersMultiply(6, 3);
    PowersMultiply(9, 9);
    PowersMultiply(18, 9);
    PowersMultiply(27, 3);
    assert Pow2(31) == 2 * Pow2(30);
  }

  lemma XorShiftIs(x: U64, k: nat, shifted: U64)
    requires shifted * Pow2(k) <= x < (shifted + 1) * Pow2(k)
    ensures XorShift(x, k) == XorBits(x, shifted, 64)
  {
    hide Pow2, ShiftRight, XorBits;
    ShiftIs(x, k, shifted);
  }

  lemma FirstHalf()
    ensures XorBits(0x9e37_79b9, 0x2, 32) == 0x9e37_79bb
  {
    hide XorBits;
    NoBits(0, 0);
    XorByDigit(0x9e3_779b, 1, 0, 0, 1, 0x0, 0, 0, 1, 0, 32);
    XorByDigit(0x9e_3779, 1, 0, 1, 1, 0x0, 0, 0, 0, 0, 28);
    XorByDigit(0x9_e377, 1, 0, 0, 1, 0x0, 0, 0, 0, 0, 24);
    XorByDigit(0x9e37, 0, 1, 1, 1, 0x0, 0, 0, 0, 0, 20);
    XorByDigit(0x9e3, 0, 1, 1, 1, 0x0, 0, 0, 0, 0, 16);
    XorByDigit(0x9e, 0, 0, 1, 1, 0x0, 0, 0, 0, 0, 12);
    XorByDigit(0x9, 1, 1, 1, 0, 0x0, 0, 0, 0, 0, 8);
    XorByDigit(0x0, 1, 0, 0, 1, 0x0, 0, 0, 0, 0, 4);
  }

  lemma FirstShift()
    ensures XorBits(0x9e37_79b9_7f4a_7c15, 0x2_78dd_e6e5, 64) == 0x9e37_79bb_0797_9af0
  {
    hide XorBits;
    FirstHalf();
    XorByDigit(0x9e3_779b_97f4_a7c1, 0, 1, 0, 1, 0x278d_de6e, 0, 1, 0, 1, 64);
    XorByDigit(0x9e_3779_b97f_4a7c, 0, 0, 0, 1, 0x278_dde6, 1, 1, 1, 0, 60);
    XorByDigit(0x9_e377_9b97_f4a7, 1, 1, 0, 0, 0x27_8dde, 0, 1, 1, 0, 56);
    XorByDigit(0x9e37_79b9_7f4a, 0, 1, 1, 1, 0x2_78dd, 1, 1, 1, 0, 52);
    XorByDigit(0x9e3_779b_97f4, 1, 0, 1, 0, 0x278d, 1, 1, 0, 1, 48);
    XorByDigit(0x9e_3779_b97f, 0, 1, 0, 0, 0x278, 1, 1, 0, 1, 44);
    XorByDigit(0x9_e377_9b97, 1, 1, 1, 1, 0x27, 1, 0, 0, 0, 40);
    XorByDigit(0x9e37_79b9, 0, 1, 1, 1, 0x2, 0, 1, 1, 1, 36);
  }

  lemma SecondHalf()
    ensures XorBits(0x6f68_261b, 0xd, 32) == 0x6f68_2616
  {
    hide XorBits;
    NoBits(0, 0);
    XorByDigit(0x6f6_8261, 1, 0, 1, 1, 0x0, 1, 1, 0, 1, 32);
    XorByDigit(0x6f_6826, 0, 0, 0, 1, 0x0, 0, 0, 0, 0, 28);
    XorByDigit(0x6_f682, 0, 1, 1, 0, 0x0, 0, 0, 0, 0, 24);
    XorByDigit(0x6f68, 0, 0, 1, 0, 0x0, 0, 0, 0, 0, 20);
    XorByDigit(0x6f6, 1, 0, 0, 0, 0x0, 0, 0, 0, 0, 16);
    XorByDigit(0x6f, 0, 1, 1, 0, 0x0, 0, 0, 0, 0, 12);
    XorByDigit(0x6, 1, 1, 1, 1, 0x0, 0, 0, 0, 0, 8);
    XorByDigit(0x0, 0, 1, 1, 0, 0x0, 0, 0, 0, 0, 4);
  }

  lemma SecondShift()
    ensures XorBits(0x6f68_261b_57e7_a770, 0xd_ed04_c36a, 64) == 0x6f68_2616_bae3_641a
  {
    hide XorBits;
    SecondHalf();
    XorByDigit(0x6f6_8261_b57e_7a77, 0, 0, 0, 0, 0xded0_4c36, 1, 0, 1, 0, 64);
    XorByDigit(0x6f_6826_1b57_e7a7, 0, 1, 1, 1, 0xded_04c3, 0, 1, 1, 0, 60);
    XorByDigit(0x6_f682_61b5_7e7a, 0, 1, 1, 1, 0xde_d04c, 0, 0, 1, 1, 56);
    XorByDigit(0x6f68_261b_57e7, 1, 0, 1, 0, 0xd_ed04, 1, 1, 0, 0, 52);
    XorByDigit(0x6f6_8261_b57e, 0, 1, 1, 1, 0xded0, 0, 1, 0, 0, 48);
    XorByDigit(0x6f_6826_1b57, 1, 1, 1, 0, 0xded, 0, 0, 0, 0, 44);
    XorByDigit(0x6_f682_61b5, 0, 1, 1, 1, 0xde, 1, 1, 0, 1, 40);
    XorByDigit(0x6f68_261b, 0, 1, 0, 1, 0xd, 1, 1, 1, 0, 36);
  }

  lemma ThirdHalf()
    ensures XorBits(0xe220_a838, 0x1, 32) == 0xe220_a839
  {
    hide XorBits;
    NoBits(0, 0);
    XorByDigit(0xe22_0a83, 1, 0, 0, 0, 0x0, 0, 0, 0, 1, 32);
    XorByDigit(0xe2_20a8, 0, 0, 1, 1, 0x0, 0, 0, 0, 0, 28);
    XorByDigit(0xe_220a, 1, 0, 0, 0, 0x0, 0, 0, 0, 0, 24);
    XorByDigit(0xe220, 1, 0, 1, 0, 0x0, 0, 0, 0, 0, 20);
    XorByDigit(0xe22, 0, 0, 0, 0, 0x0, 0, 0, 0, 0, 16);
    XorByDigit(0xe2, 0, 0, 1, 0, 0x0, 0, 0, 0, 0, 12);
    XorByDigit(0xe, 0, 0, 1, 0, 0x0, 0, 0, 0, 0, 8);
    XorByDigit(0x0, 1, 1, 1, 0, 0x0, 0, 0, 0, 0, 4);
  }

  lemma ThirdShift()
    ensures XorBits(0xe220_a838_bf5c_9dde, 0x1_c441_5071, 64) == 0xe220_a839_7b1d_cdaf
  {
    hide XorBits;
    ThirdHalf();
    XorByDigit(0xe22_0a83_8bf5_c9dd, 1, 1, 1, 0, 0x1c44_1507, 0, 0, 0, 1, 64);
    XorByDigit(0xe2_20a8_38bf_5c9d, 1, 1, 0, 1, 0x1c4_4150, 0, 1, 1, 1, 60);
    XorByDigit(0xe_220a_838b_f5c9, 1, 1, 0, 1, 0x1c_4415, 0, 0, 0, 0, 56);
    XorByDigit(0xe220_a838_bf5c, 1, 0, 0, 1, 0x1_c441, 0, 1, 0, 1, 52);
    XorByDigit(0xe22_0a83_8bf5, 1, 1, 0, 0, 0x1c44, 0, 0, 0, 1, 48);
    XorByDigit(0xe2_20a8_38bf, 0, 1, 0, 1, 0x1c4, 0, 1, 0, 0, 44);
    XorByDigit(0xe_220a_838b, 1, 1, 1, 1, 0x1c, 0, 1, 0, 0, 40);
    XorByDigit(0xe220_a838, 1, 0, 1, 1, 0x1, 1, 1, 0, 0, 36);
  }

  /** The first output of SplitMix64 seeded with zero. */
  lemma FirstOutput()
    ensures Mix(0) == 0xe220_a839_7b1d_cdaf
  {
    hide XorShift, Pow2, XorBits;
    ShiftPowers();
    XorShiftIs(0x9e37_79b9_7f4a_7c15, 30, 0x2_78dd_e6e5);
    FirstShift();
    XorShiftIs(0x6f68_261b_57e7_a770, 27, 0xd_ed04_c36a);
    SecondShift();
    XorShiftIs(0xe220_a838_bf5c_9dde, 31, 0x1_c441_5071);
    ThirdShift();
  }
}
