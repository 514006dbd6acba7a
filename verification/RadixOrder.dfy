/** What the envelope sort computes: the stable order by target and event key, whichever passes run. */
module RadixOrder {
  import opened Events
  import opened Words
  import opened RadixSort

  /** Envelopes are ordered by target, then by event key. */
  predicate EnvelopeLess(a: Event, b: Event) {
    a.target < b.target || (a.target == b.target && KeyLess(a.key, b.key))
  }

  /** The digits below `n`, compared from the highest pass down. */
  predicate DigitsLess(a: Event, b: Event, n: nat) {
    n > 0 && (Digit(a, n - 1) < Digit(b, n - 1) || (Digit(a, n - 1) == Digit(b, n - 1) && DigitsLess(a, b, n - 1)))
  }

  predicate SameDigits(a: Event, b: Event, n: nat) {
    n == 0 || (Digit(a, n - 1) == Digit(b, n - 1) && SameDigits(a, b, n - 1))
  }

  /** The passes of one field compare that field. */
  lemma {:induction false} FieldOrder(a: Event, b: Event, from: nat, n: nat, x: nat, y: nat)
    requires forall k | 0 <= k < n :: Digit(a, from + k) == Byte(x, k) && Digit(b, from + k) == Byte(y, k)
    ensures DigitsLess(a, b, from + n) <==>
            Low(x, n) < Low(y, n) || (Low(x, n) == Low(y, n) && DigitsLess(a, b, from))
    ensures SameDigits(a, b, from + n) <==> Low(x, n) == Low(y, n) && SameDigits(a, b, from)
    decreases n
  {
    if n > 0 {
      FieldOrder(a, b, from, n - 1, x, y);
      LowOrder(x, y, n);
      assert Digit(a, from + (n - 1)) == Byte(x, n - 1) && Digit(b, from + (n - 1)) == Byte(y, n - 1);
    }
  }

  lemma PhaseIsTwoBytes(x: U16)
    ensures Low(x, 2) == x
  {
    LowAndShift(x, 2);
    assert Pow256(2) == 0x1_0000;
  }

  /** All passes together compare envelopes by target and key. */
  lemma DigitsAreTheOrder(a: Event, b: Event)
    ensures DigitsLess(a, b, PASSES) <==> EnvelopeLess(a, b)
    ensures SameDigits(a, b, PASSES) <==> a.target == b.target && a.key == b.key
  {
    hide Byte, Low, DigitsLess, SameDigits;
    NoDigits(a, b);
    FieldOrder(a, b, 0, 8, a.key.originSeq, b.key.originSeq);
    FieldOrder(a, b, 8, 8, a.key.originNode, b.key.originNode);
    FieldOrder(a, b, 16, 2, a.key.phase, b.key.phase);
    FieldOrder(a, b, 18, 8, a.key.time, b.key.time);
    FieldOrder(a, b, 26, 8, a.target, b.target);
    LowIsAll(a.key.originSeq);
    LowIsAll(b.key.originSeq);
    LowIsAll(a.key.originNode);
    LowIsAll(b.key.originNode);
    PhaseIsTwoBytes(a.key.phase);
    PhaseIsTwoBytes(b.key.phase);
    LowIsAll(a.key.time);
    LowIsAll(b.key.time);
    LowIsAll(a.target);
    LowIsAll(b.target);
  }

  lemma NoDigits(a: Event, b: Event)
    ensures !DigitsLess(a, b, 0) && SameDigits(a, b, 0)
  {
  }

  /** No event precedes an earlier one in the first `n` digits. */
  ghost predicate SortedBy(s: seq<Event>, n: nat) {
    forall i, j | 0 <= i < j < |s| :: !DigitsLess(s[j], s[i], n)
  }

  lemma {:induction false} SelectMember(s: seq<Event>, pass: nat, b: nat, e: Event)
    ensures e in Select(s, pass, b) <==> e in s && Digit(e, pass) == b
  {
    if s != [] {
      SelectMember(s[..|s| - 1], pass, b, e);
      assert s == s[..|s| - 1] + [s[|s| - 1]];
    }
  }

  lemma {:induction false} BucketsMember(s: seq<Event>, pass: nat, b: nat, e: Event)
    ensures e in Buckets(s, pass, b) <==> e in s && Digit(e, pass) < b
  {
    hide Buckets, Select, Digit;
    BucketsStep(s, pass, b);
    if b > 0 {
      BucketsMember(s, pass, b - 1, e);
      SelectMember(s, pass, b - 1, e);
    }
  }

  /** The last event, if its byte is one of those selected. */
  ghost function LastIf(s: seq<Event>, chosen: bool): multiset<Event>
    requires s != []
  {
    if chosen then multiset{s[|s| - 1]} else multiset{}
  }

  lemma LastIfStep(s: seq<Event>, digit: nat, b: nat)
    requires s != [] && b > 0
    ensures LastIf(s, digit < b) == LastIf(s, digit < b - 1) + LastIf(s, digit == b - 1)
  {
  }

  lemma NothingBelowZero(s: seq<Event>, digit: nat)
    requires s != []
    ensures LastIf(s, digit < 0) == multiset{}
  {
  }

  lemma SelectMultiset(s: seq<Event>, pass: nat, b: nat)
    requires s != []
    ensures multiset(Select(s, pass, b)) ==
            multiset(Select(s[..|s| - 1], pass, b)) + LastIf(s, Digit(s[|s| - 1], pass) == b)
  {
  }

  lemma {:induction false} BucketsMultiset(s: seq<Event>, pass: nat, b: nat)
    requires s != []
    ensures multiset(Buckets(s, pass, b)) ==
            multiset(Buckets(s[..|s| - 1], pass, b)) + LastIf(s, Digit(s[|s| - 1], pass) < b)
  {
    hide Buckets, Select, Digit, LastIf;
    BucketsStep(s, pass, b);
    BucketsStep(s[..|s| - 1], pass, b);
    if b == 0 {
      NothingBelowZero(s, Digit(s[|s| - 1], pass));
    } else {
      BucketsMultiset(s, pass, b - 1);
      SelectMultiset(s, pass, b - 1);
      LastIfStep(s, Digit(s[|s| - 1], pass), b);
    }
  }

  lemma {:induction false} PassPermutes(s: seq<Event>, pass: nat)
    ensures multiset(StablePass(s, pass)) == multiset(s)
  {
    hide Buckets;
    if s == [] {
      EmptyBuckets(pass, 256);
    } else {
      PassPermutes(s[..|s| - 1], pass);
      BucketsMultiset(s, pass, 256);
      assert s == s[..|s| - 1] + [s[|s| - 1]];
    }
  }

  lemma {:induction false} SelectSorted(s: seq<Event>, pass: nat, b: nat, n: nat)
    requires SortedBy(s, n)
    ensures SortedBy(Select(s, pass, b), n)
  {
    if s != [] {
      var init, last := s[..|s| - 1], s[|s| - 1];
      SelectSorted(init, pass, b, n);
      forall e | e in Select(init, pass, b)
        ensures !DigitsLess(last, e, n)
      {
        SelectMember(init, pass, b, e);
        var i :| 0 <= i < |init| && init[i] == e;
        assert s[i] == e;
      }
    }
  }

  lemma {:induction false} BucketsSorted(s: seq<Event>, pass: nat, b: nat)
    requires SortedBy(s, pass)
    ensures SortedBy(Buckets(s, pass, b), pass + 1)
  {
    hide Select, Digit, DigitsLess;
    if b > 0 {
      hide SortedBy;
      BucketsSorted(s, pass, b - 1);
      SelectSorted(s, pass, b - 1, pass);
      var low, high := Buckets(s, pass, b - 1), Select(s, pass, b - 1);
      forall e | e in low
        ensures Digit(e, pass) < b - 1
      {
        BucketsMember(s, pass, b - 1, e);
      }
      forall e | e in high
        ensures Digit(e, pass) == b - 1
      {
        SelectMember(s, pass, b - 1, e);
      }
      JoinSorted(low, high, pass);
    }
  }

  lemma JoinSorted(low: seq<Event>, high: seq<Event>, pass: nat)
    requires SortedBy(low, pass + 1) && SortedBy(high, pass)
    requires forall x, y | x in low && y in high :: Digit(x, pass) < Digit(y, pass)
    requires forall x, y | x in high && y in high :: Digit(x, pass) == Digit(y, pass)
    ensures SortedBy(low + high, pass + 1)
  {
    var all := low + high;
    forall i, j | 0 <= i < j < |all|
      ensures !DigitsLess(all[j], all[i], pass + 1)
    {
      if |low| <= i {
        assert all[i] == high[i - |low|] && all[j] == high[j - |low|];
      } else if |low| <= j {
        assert all[i] in low && all[j] in high;
      }
    }
  }

  lemma {:induction false} PassesSort(s: seq<Event>, n: nat)
    ensures SortedBy(AllPasses(s, n), n)
    ensures multiset(AllPasses(s, n)) == multiset(s)
  {
    hide Buckets;
    if n > 0 {
      PassesSort(s, n - 1);
      BucketsSorted(AllPasses(s, n - 1), n - 1, 256);
      PassPermutes(AllPasses(s, n - 1), n - 1);
    }
  }

  /** The events with the same first `n` digits as `x`, in their order. */
  function Class(s: seq<Event>, x: Event, n: nat): seq<Event> {
    if s == [] then []
    else
      var last := s[|s| - 1];
      Class(s[..|s| - 1], x, n) + if SameDigits(last, x, n) then [last] else []
  }

  /** Events with the same target and key, in their order. */
  function Twins(s: seq<Event>, x: Event): seq<Event> {
    if s == [] then []
    else
      var last := s[|s| - 1];
      Twins(s[..|s| - 1], x) + if last.target == x.target && last.key == x.key then [last] else []
  }

  lemma {:induction false} ClassAppend(s: seq<Event>, t: seq<Event>, x: Event, n: nat)
    ensures Class(s + t, x, n) == Class(s, x, n) + Class(t, x, n)
    decreases |t|
  {
    if t == [] {
      assert s + t == s;
    } else {
      var init, last := t[..|t| - 1], t[|t| - 1];
      ClassAppend(s, init, x, n);
      assert (s + t)[..|s + t| - 1] == s + init;
    }
  }

  lemma ClassOfNone(x: Event, n: nat)
    ensures Class([], x, n) == []
  {
  }

  lemma ClassOfOne(e: Event, x: Event, n: nat)
    ensures Class([e], x, n) == if SameDigits(e, x, n) then [e] else []
  {
    assert [e][..0] == [];
  }

  /** Choosing by one more digit is choosing by the others first. */
  lemma {:induction false} ClassOfSelect(s: seq<Event>, x: Event, pass: nat, b: nat)
    ensures Class(Select(s, pass, b), x, pass + 1) == if Digit(x, pass) == b then Class(s, x, pass + 1) else []
  {
    if s != [] {
      var init, last := s[..|s| - 1], s[|s| - 1];
      ClassOfSelect(init, x, pass, b);
      ClassOfOne(last, x, pass + 1);
      if Digit(last, pass) == b {
        ClassAppend(Select(init, pass, b), [last], x, pass + 1);
      } else {
        assert Select(s, pass, b) == Select(init, pass, b);
      }
    }
  }

  lemma {:induction false} ClassOfBuckets(s: seq<Event>, x: Event, pass: nat, b: nat)
    ensures Class(Buckets(s, pass, b), x, pass + 1) == if Digit(x, pass) < b then Class(s, x, pass + 1) else []
  {
    hide Buckets, Class, Select, Digit;
    ClassOfNone(x, pass + 1);
    BucketsStep(s, pass, b);
    if b > 0 {
      ClassOfBuckets(s, x, pass, b - 1);
      ClassOfSelect(s, x, pass, b - 1);
      ClassAppend(Buckets(s, pass, b - 1), Select(s, pass, b - 1), x, pass + 1);
      var whole := Class(s, x, pass + 1);
      assert whole + [] == [] + whole == whole;
    }
  }

  /** Equal classes by fewer digits stay equal when one digit more is asked for. */
  lemma {:induction false} ClassRefines(s: seq<Event>, x: Event, n: nat)
    ensures Class(s, x, n + 1) == Class(Class(s, x, n), x, n + 1)
  {
    if s != [] {
      var init, last := s[..|s| - 1], s[|s| - 1];
      ClassRefines(init, x, n);
      ClassOfOne(last, x, n + 1);
      if SameDigits(last, x, n) {
        ClassAppend(Class(init, x, n), [last], x, n + 1);
      } else {
        assert Class(s, x, n) == Class(init, x, n);
      }
    }
  }

  lemma {:induction false} PassesAreStable(s: seq<Event>, x: Event, n: nat)
    ensures Class(AllPasses(s, n), x, n) == Class(s, x, n)
  {
    hide Buckets, Class, Digit;
    if n > 0 {
      var before := AllPasses(s, n - 1);
      PassesAreStable(s, x, n - 1);
      ClassOfBuckets(before, x, n - 1, 256);
      ClassRefines(before, x, n - 1);
      ClassRefines(s, x, n - 1);
    }
  }

  lemma {:induction false} ClassIsTwins(s: seq<Event>, x: Event)
    ensures Class(s, x, PASSES) == Twins(s, x)
  {
    if s != [] {
      ClassIsTwins(s[..|s| - 1], x);
      DigitsAreTheOrder(s[|s| - 1], x);
    }
  }

  /** The sorted, stable rearrangement of `s` by target and key. */
  ghost predicate IsStableSort(sorted: seq<Event>, s: seq<Event>) {
    && multiset(sorted) == multiset(s)
    && (forall i, j | 0 <= i < j < |sorted| :: !EnvelopeLess(sorted[j], sorted[i]))
    && (forall x :: Twins(sorted, x) == Twins(s, x))
  }

  /** All 34 passes give the stable order. */
  lemma AllPassesSort(s: seq<Event>)
    ensures IsStableSort(AllPasses(s, PASSES), s)
  {
    hide AllPasses, DigitsLess, Twins, Class;
    var sorted := AllPasses(s, PASSES);
    PassesSort(s, PASSES);
    forall i, j | 0 <= i < j < |sorted|
      ensures !EnvelopeLess(sorted[j], sorted[i])
    {
      DigitsAreTheOrder(sorted[j], sorted[i]);
    }
    forall x
      ensures Twins(sorted, x) == Twins(s, x)
    {
      PassesAreStable(s, x, PASSES);
      ClassIsTwins(sorted, x);
      ClassIsTwins(s, x);
    }
  }
}
