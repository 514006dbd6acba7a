/** Sets as bits of 64-bit words: one bit for each member of a sorted list of candidates. */
module Bitsets {
  import Basics
  import opened Events
  import opened Words
  import opened SplitMix

  /** `x | (1 << b)`. */
  function SetBit(x: nat, b: nat): nat {
    if Bit(x, b) then x else x + Pow2(b)
  }

  lemma {:induction false} BitAfterSet(x: nat, b: nat, i: nat)
    ensures Bit(SetBit(x, b), i) == (Bit(x, i) || i == b)
  {
    if !Bit(x, b) {
      AddedBit(x, b, i);
    }
  }

  lemma {:induction false} AddedBit(x: nat, b: nat, i: nat)
    requires !Bit(x, b)
    ensures Bit(x + Pow2(b), i) == (Bit(x, i) || i == b)
    decreases b
  {
    if b == 0 {
      assert (x + 1) / 2 == x / 2;
    } else {
      assert x + Pow2(b) == x + 2 * Pow2(b - 1);
      assert (x + 2 * Pow2(b - 1)) / 2 == x / 2 + Pow2(b - 1) && (x + 2 * Pow2(b - 1)) % 2 == x % 2;
      if i > 0 {
        AddedBit(x / 2, b - 1, i - 1);
      }
    }
  }

  lemma {:induction false} AddedFits(x: nat, b: nat, n: nat)
    requires x < Pow2(n) && b < n && !Bit(x, b)
    ensures x + Pow2(b) < Pow2(n)
    decreases b
  {
    hide Bit;
    HalfFits(x, n);
    BitStep(x, b);
    if b > 0 {
      AddedFits(x / 2, b - 1, n - 1);
      BitZero(x % 2, x / 2 + Pow2(b - 1), Pow2(n - 1));
    } else {
      BitZero(1, x / 2, Pow2(n - 1));
    }
  }

  lemma SetFits(x: U64, b: nat)
    requires b < 64
    ensures SetBit(x, b) <= U64_MAX
  {
    hide Bit;
    WordsIsPower();
    if !Bit(x, b) {
      AddedFits(x, b, 64);
    }
  }

  /** Bit `b` of the bitset that starts at word `from`. */
  predicate BitAt(words: seq<U64>, from: nat, b: nat)
    requires from + b / 64 < |words|
  {
    Bit(words[from + b / 64], b % 64)
  }

  /** The words a bitset over `n` candidates takes. */
  function WordsFor(n: nat): nat { (n + 63) / 64 }

  /** Sets one bit of a bitset. */
  method SetBitAt(words: seq<U64>, from: nat, b: nat) returns (after: seq<U64>)
    requires from + b / 64 < |words|
    ensures |after| == |words|
    ensures forall f: nat, c: nat | f + c / 64 < |words| ::
              BitAt(after, f, c) == (BitAt(words, f, c) || (f + c / 64 == from + b / 64 && c % 64 == b % 64))
  {
    hide Bit, SetBit;
    SetFits(words[from + b / 64], b % 64);
    after := words[from + b / 64 := SetBit(words[from + b / 64], b % 64)];
    forall f: nat, c: nat | f + c / 64 < |words|
      ensures BitAt(after, f, c) == (BitAt(words, f, c) || (f + c / 64 == from + b / 64 && c % 64 == b % 64))
    {
      BitAfterSet(words[from + b / 64], b % 64, c % 64);
    }
  }

  /** The first word of row `p`. */
  function RowStart(p: nat, width: nat): nat {
    assert p * width >= 0;
    p * width
  }

  /** Bit `b` of row `p` is there, and tells `yes`. */
  ghost predicate Tells(words: seq<U64>, width: nat, p: nat, b: nat, yes: bool) {
    RowStart(p, width) + b / 64 < |words| && (BitAt(words, RowStart(p, width), b) <==> yes)
  }

  predicate Member(candidates: seq<U64>, sets: seq<set<U64>>, p: nat, b: nat)
    requires p < |sets| && b < |candidates|
  {
    candidates[b] in sets[p]
  }

  /** The rows of `width` words hold the sets: bit `b` of row `p` tells whether candidate `b` is in set `p`. */
  ghost predicate Encodes(words: seq<U64>, width: nat, candidates: seq<U64>, sets: seq<set<U64>>) {
    && |words| == |sets| * width && |candidates| <= 64 * width
    && forall p: nat, b: nat {:trigger Member(candidates, sets, p, b)} | p < |sets| && b < |candidates| ::
         Tells(words, width, p, b, Member(candidates, sets, p, b))
  }

  lemma InRow(p: nat, rows: nat, width: nat, b: nat, n: nat)
    requires p < rows && b < n <= 64 * width
    ensures 0 <= RowStart(p, width) <= RowStart(p, width) + b / 64 < rows * width
    ensures b / 64 < width
  {
    OneMore(p, rows, width);
  }

  lemma RowsApart(p: nat, q: nat, width: nat, b: nat, c: nat, n: nat)
    requires b < n <= 64 * width && c < n
    ensures RowStart(p, width) + b / 64 == RowStart(q, width) + c / 64 && b % 64 == c % 64 <==> p == q && b == c
  {
    assert b / 64 < width && c / 64 < width;
    if p < q {
      OneMore(p, q, width);
    } else if q < p {
      OneMore(q, p, width);
    }
  }

  ghost predicate Distinct(candidates: seq<U64>) {
    forall i, j | 0 <= i < j < |candidates| :: candidates[i] != candidates[j]
  }

  /** Candidate `b` of set `q` has its bit when the sets before `p` and the members in `done` of set `p` are written. */
  ghost predicate Written(candidates: seq<U64>, sets: seq<set<U64>>, p: nat, done: set<U64>, q: nat, b: nat)
    requires q < |sets| && b < |candidates|
  {
    if q < p then candidates[b] in sets[q] else q == p && candidates[b] in done
  }

  ghost predicate Partly(words: seq<U64>, width: nat, candidates: seq<U64>, sets: seq<set<U64>>, p: nat, done: set<U64>) {
    && |words| == |sets| * width && |candidates| <= 64 * width
    && forall q: nat, b: nat {:trigger Written(candidates, sets, p, done, q, b)} | q < |sets| && b < |candidates| ::
         Tells(words, width, q, b, Written(candidates, sets, p, done, q, b))
  }

  /** What setting one bit does to a bit. */
  lemma OneBit(words: seq<U64>, after: seq<U64>, width: nat, n: nat, rows: nat, p: nat, b: nat, q: nat, c: nat, yes: bool)
    requires |words| == rows * width == |after| && n <= 64 * width && p < rows && q < rows && b < n && c < n
    requires forall f: nat, c: nat | f + c / 64 < |words| ::
               BitAt(after, f, c) == (BitAt(words, f, c) || (f + c / 64 == RowStart(p, width) + b / 64 && c % 64 == b % 64))
    requires Tells(words, width, q, c, yes)
    ensures Tells(after, width, q, c, yes || (q == p && c == b))
  {
    hide BitAt, RowStart;
    RowsApart(q, p, width, c, b, n);
  }

  lemma OneMoreBit(words: seq<U64>, after: seq<U64>, width: nat, candidates: seq<U64>, sets: seq<set<U64>>, p: nat,
                   done: set<U64>, b: nat)
    requires Partly(words, width, candidates, sets, p, done) && Distinct(candidates) && p < |sets| && b < |candidates|
    requires |after| == |words|
    requires forall f: nat, c: nat | f + c / 64 < |words| ::
               BitAt(after, f, c) == (BitAt(words, f, c) || (f + c / 64 == RowStart(p, width) + b / 64 && c % 64 == b % 64))
    ensures Partly(after, width, candidates, sets, p, done + {candidates[b]})
  {
    hide BitAt, RowStart, Tells;
    var more := done + {candidates[b]};
    forall q: nat, c: nat | q < |sets| && c < |candidates|
      ensures Tells(after, width, q, c, Written(candidates, sets, p, more, q, c))
    {
      var yes := Written(candidates, sets, p, done, q, c);
      OneBit(words, after, width, |candidates|, |sets|, p, b, q, c, yes);
      assert Written(candidates, sets, p, more, q, c) == (yes || (q == p && c == b));
    }
  }

  /** Writes sets of candidates as bitsets, one row for each set. */
  method EncodeSets(candidates: seq<U64>, sets: seq<set<U64>>, width: nat) returns (words: seq<U64>)
    requires Distinct(candidates) && |candidates| <= 64 * width
    requires forall p, x | 0 <= p < |sets| && x in sets[p] :: x in candidates
    ensures Encodes(words, width, candidates, sets)
  {
    hide Partly, BitAt, Encodes, RowStart;
    assert |sets| * width >= 0;
    words := seq(|sets| * width, _ => 0);
    NoBits(words, width, candidates, sets);
    for p: nat := 0 to |sets|
      invariant Partly(words, width, candidates, sets, p, {})
    {
      var left := sets[p];
      ghost var done: set<U64> := {};
      while left != {}
        invariant done + left == sets[p] && done !! left
        invariant Partly(words, width, candidates, sets, p, done)
        decreases left
      {
        var x :| x in left;
        assert x in sets[p] && x in candidates;
        var b: nat :| b < |candidates| && candidates[b] == x;
        PartlySize(words, width, candidates, sets, p, done, b);
        var after := SetBitAt(words, RowStart(p, width), b);
        OneMoreBit(words, after, width, candidates, sets, p, done, b);
        words, done, left := after, done + {x}, left - {x};
      }
      assert done == sets[p];
      NextSet(words, width, candidates, sets, p);
    }
    AllSets(words, width, candidates, sets);
  }

  lemma NoBits(words: seq<U64>, width: nat, candidates: seq<U64>, sets: seq<set<U64>>)
    requires |words| == |sets| * width && |candidates| <= 64 * width && forall i | 0 <= i < |words| :: words[i] == 0
    ensures Partly(words, width, candidates, sets, 0, {})
  {
    hide Bit;
    forall q: nat, b: nat | q < |sets| && b < |candidates|
      ensures Tells(words, width, q, b, Written(candidates, sets, 0, {}, q, b))
    {
      InRow(q, |sets|, width, b, |candidates|);
      NoBitOfZero(b % 64);
    }
  }

  lemma {:induction false} NoBitOfZero(i: nat)
    ensures !Bit(0, i)
  {
    if i > 0 {
      NoBitOfZero(i - 1);
    }
  }

  lemma PartlySize(words: seq<U64>, width: nat, candidates: seq<U64>, sets: seq<set<U64>>, p: nat, done: set<U64>, b: nat)
    requires Partly(words, width, candidates, sets, p, done) && p < |sets| && b < |candidates|
    ensures RowStart(p, width) + b / 64 < |words|
  {
    InRow(p, |sets|, width, b, |candidates|);
  }

  lemma NextSet(words: seq<U64>, width: nat, candidates: seq<U64>, sets: seq<set<U64>>, p: nat)
    requires p < |sets| && Partly(words, width, candidates, sets, p, sets[p])
    ensures Partly(words, width, candidates, sets, p + 1, {})
  {
    hide Tells;
    var next := p + 1;
    forall q: nat, b: nat | q < |sets| && b < |candidates|
      ensures Tells(words, width, q, b, Written(candidates, sets, next, {}, q, b))
    {
      assert Written(candidates, sets, next, {}, q, b) == Written(candidates, sets, p, sets[p], q, b);
    }
  }

  lemma AllSets(words: seq<U64>, width: nat, candidates: seq<U64>, sets: seq<set<U64>>)
    requires Partly(words, width, candidates, sets, |sets|, {})
    ensures Encodes(words, width, candidates, sets)
  {
    hide Tells;
    forall q: nat, b: nat | q < |sets| && b < |candidates|
      ensures Tells(words, width, q, b, Member(candidates, sets, q, b))
    {
      assert Written(candidates, sets, |sets|, {}, q, b) == Member(candidates, sets, q, b);
    }
  }

  /** Reads one set back: the candidates whose bits are set. */
  method DecodeSet(words: seq<U64>, from: nat, candidates: seq<U64>) returns (members: set<U64>)
    requires forall b: nat | b < |candidates| :: from + b / 64 < |words|
    ensures forall x :: x in members <==> exists b: nat :: b < |candidates| && candidates[b] == x && BitAt(words, from, b)
  {
    hide BitAt;
    members := {};
    for b: nat := 0 to |candidates|
      invariant forall x :: x in members <==> exists c: nat :: c < b && candidates[c] == x && BitAt(words, from, c)
    {
      if BitAt(words, from, b) {
        members := members + {candidates[b]};
      }
    }
  }

  /** The bits of a row give its set back exactly. */
  lemma SetComesBack(words: seq<U64>, width: nat, candidates: seq<U64>, sets: seq<set<U64>>, p: nat, members: set<U64>)
    requires Encodes(words, width, candidates, sets) && p < |sets| && forall x | x in sets[p] :: x in candidates
    requires forall b: nat | b < |candidates| :: RowStart(p, width) + b / 64 < |words|
    requires forall x :: x in members <==>
                         exists b: nat :: b < |candidates| && candidates[b] == x && BitAt(words, RowStart(p, width), b)
    ensures members == sets[p]
  {
    hide BitAt, RowStart;
    forall x
      ensures x in members <==> x in sets[p]
    {
      if x in sets[p] {
        var b: nat :| b < |candidates| && candidates[b] == x;
        assert Tells(words, width, p, b, Member(candidates, sets, p, b));
      }
      if x in members {
        var b: nat :| b < |candidates| && candidates[b] == x && BitAt(words, RowStart(p, width), b);
        assert Tells(words, width, p, b, Member(candidates, sets, p, b));
      }
    }
  }

  /** Bit `b` is digit `b` to the base 2. */
  lemma {:induction false} BitIsDigit(x: nat, b: nat)
    ensures Pow2(b) > 0 && (Bit(x, b) <==> x / Pow2(b) % 2 == 1)
    decreases b
  {
    if b > 0 {
      BitIsDigit(x / 2, b - 1);
      Basics.DivideTwice(x, 2, Pow2(b - 1));
    }
  }

  /** No fewer words hold `n` bits. */
  lemma WordsAreLeast(n: nat, words: nat)
    ensures n <= 64 * words <==> WordsFor(n) <= words
  {
  }
}
