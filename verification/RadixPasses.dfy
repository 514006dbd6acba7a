/** The envelope sort itself: finds the bytes that vary, runs only their passes, and loses nothing by it. */
module RadixPasses {
  import opened Events
  import opened Words
  import opened RadixSort
  import opened RadixOrder

  /** Every event has the same byte in this pass. */
  ghost predicate Constant(s: seq<Event>, pass: nat) {
    forall i | 0 <= i < |s| :: Digit(s[i], pass) == Digit(s[0], pass)
  }

  lemma {:induction false} SelectAll(s: seq<Event>, pass: nat, b: nat, d: nat)
    requires forall e | e in s :: Digit(e, pass) == d
    ensures Select(s, pass, b) == if b == d then s else []
  {
    if s != [] {
      SelectAll(s[..|s| - 1], pass, b, d);
    }
  }

  lemma {:induction false} BucketsAll(s: seq<Event>, pass: nat, b: nat, d: nat)
    requires forall e | e in s :: Digit(e, pass) == d
    ensures Buckets(s, pass, b) == if d < b then s else []
  {
    hide Buckets, Select, Digit;
    BucketsStep(s, pass, b);
    if b > 0 {
      BucketsAll(s, pass, b - 1, d);
      SelectAll(s, pass, b - 1, d);
      assert s + [] == [] + s == s;
    }
  }

  /** A pass over a byte that never varies moves nothing. */
  lemma ConstantPass(s: seq<Event>, pass: nat)
    requires Constant(s, pass)
    ensures StablePass(s, pass) == s
  {
    hide Buckets, Digit;
    if s == [] {
      EmptyBuckets(pass, 256);
    } else {
      BucketsAll(s, pass, 256, Digit(s[0], pass));
    }
  }

  /** Permuting keeps a byte constant. */
  lemma ConstantPermutes(s: seq<Event>, t: seq<Event>, pass: nat)
    requires multiset(s) == multiset(t) && Constant(s, pass)
    ensures Constant(t, pass)
  {
    forall i | 0 <= i < |t|
      ensures Digit(t[i], pass) == Digit(s[0], pass)
    {
      assert t[i] in multiset(t);
      assert t[i] in s;
    }
  }

  /** Skipping a pass whose byte never varies changes nothing. */
  lemma SkippedPass(s: seq<Event>, pass: nat)
    requires Constant(s, pass)
    ensures AllPasses(s, pass + 1) == AllPasses(s, pass)
  {
    hide Digit, StablePass, Constant;
    PassesSort(s, pass);
    ConstantPermutes(s, AllPasses(s, pass), pass);
    ConstantPass(AllPasses(s, pass), pass);
  }

  /** The bytes of `mask` are zero exactly where the first `count` events agree. */
  ghost predicate Tracks(mask: nat, s: seq<Event>, count: nat, from: nat, n: nat)
    requires count <= |s|
  {
    forall k | 0 <= k < n :: Byte(mask, k) == 0 <==> Constant(s[..count], from + k)
  }

  lemma ConstantSnoc(s: seq<Event>, i: nat, pass: nat)
    requires 0 < i < |s|
    ensures Constant(s[..i + 1], pass) <==> Constant(s[..i], pass) && Digit(s[i], pass) == Digit(s[0], pass)
  {
    assert s[..i + 1][i] == s[i];
    if Constant(s[..i + 1], pass) {
      forall j | 0 <= j < i
        ensures Digit(s[..i][j], pass) == Digit(s[..i][0], pass)
      {
        assert s[..i][j] == s[..i + 1][j];
      }
    }
  }

  lemma TracksStart(s: seq<Event>, from: nat, n: nat)
    requires |s| > 0
    ensures Tracks(0, s, 1, from, n)
  {
    forall k | 0 <= k < n
      ensures Byte(0, k) == 0
    {
      ShiftZero(k);
    }
  }

  lemma TracksNext(mask: nat, s: seq<Event>, i: nat, from: nat, n: nat, x: nat, y: nat)
    requires 0 < i < |s| && Tracks(mask, s, i, from, n)
    requires forall k | 0 <= k < n :: Digit(s[0], from + k) == Byte(x, k) && Digit(s[i], from + k) == Byte(y, k)
    ensures Tracks(AddDifference(mask, x, y, n), s, i + 1, from, n)
  {
    hide Digit, Constant, Byte, AddDifference;
    forall k | 0 <= k < n
      ensures Byte(AddDifference(mask, x, y, n), k) == 0 <==> Constant(s[..i + 1], from + k)
    {
      DifferenceByte(mask, x, y, n, k);
      ConstantSnoc(s, i, from + k);
      assert Digit(s[0], from + k) == Byte(x, k) && Digit(s[i], from + k) == Byte(y, k);
    }
  }

  /** The passes of one field whose byte is not zero. */
  method VaryingByteMask(value: nat, firstPass: nat) returns (mask: set<nat>)
    ensures forall pass :: pass in mask <==> firstPass <= pass < firstPass + 8 && Byte(value, pass - firstPass) != 0
  {
    mask := {};
    for byte := 0 to 8
      invariant forall pass :: pass in mask <==>
                               firstPass <= pass < firstPass + byte && Byte(value, pass - firstPass) != 0
    {
      if Byte(value, byte) != 0 {
        mask := mask + {firstPass + byte};
      }
    }
  }

  /** The passes whose byte differs between some two envelopes. */
  method VaryingBytes(events: seq<Event>) returns (mask: set<nat>)
    requires |events| > 0
    ensures forall pass | 0 <= pass < PASSES :: pass in mask <==> !Constant(events, pass)
  {
    hide Constant, Byte, AddDifference, Tracks;
    var first := events[0];
    var target, time, phase, originNode, originSeq: nat := 0, 0, 0, 0, 0;
    TracksStart(events, 0, 8);
    TracksStart(events, 8, 8);
    TracksStart(events, 16, 2);
    TracksStart(events, 18, 8);
    TracksStart(events, 26, 8);
    for i := 1 to |events|
      invariant Tracks(originSeq, events, i, 0, 8) && Tracks(originNode, events, i, 8, 8)
      invariant Tracks(phase, events, i, 16, 2) && phase < 0x1_0000
      invariant Tracks(time, events, i, 18, 8) && Tracks(target, events, i, 26, 8)
    {
      var event := events[i];
      TracksNext(originSeq, events, i, 0, 8, first.key.originSeq, event.key.originSeq);
      TracksNext(originNode, events, i, 8, 8, first.key.originNode, event.key.originNode);
      TracksNext(phase, events, i, 16, 2, first.key.phase, event.key.phase);
      TracksNext(time, events, i, 18, 8, first.key.time, event.key.time);
      TracksNext(target, events, i, 26, 8, first.target, event.target);
      DifferenceFits(phase, first.key.phase, event.key.phase);
      target := AddDifference(target, first.target, event.target, 8);
      time := AddDifference(time, first.key.time, event.key.time, 8);
      phase := AddDifference(phase, first.key.phase, event.key.phase, 2);
      originNode := AddDifference(originNode, first.key.originNode, event.key.originNode, 8);
      originSeq := AddDifference(originSeq, first.key.originSeq, event.key.originSeq, 8);
    }
    assert events[..|events|] == events;
    var ofSeq := VaryingByteMask(originSeq, 0);
    var ofNode := VaryingByteMask(originNode, 8);
    var ofPhase := VaryingByteMask(phase, 16);
    var ofTime := VaryingByteMask(time, 18);
    var ofTarget := VaryingByteMask(target, 26);
    mask := ofSeq + ofNode + ofPhase + ofTime + ofTarget;
    forall pass | 0 <= pass < PASSES
      ensures pass in mask <==> !Constant(events, pass)
    {
      PhaseHasTwoBytes(phase, pass);
      if pass < 8 {
        TracksByte(originSeq, events, 0, 8, pass);
      } else if pass < 16 {
        TracksByte(originNode, events, 8, 8, pass);
      } else if pass < 18 {
        TracksByte(phase, events, 16, 2, pass);
      } else if pass < 26 {
        TracksByte(time, events, 18, 8, pass);
      } else {
        TracksByte(target, events, 26, 8, pass);
      }
    }
  }

  lemma TracksByte(mask: nat, s: seq<Event>, from: nat, n: nat, pass: nat)
    requires Tracks(mask, s, |s|, from, n) && from <= pass < from + n
    ensures Byte(mask, pass - from) == 0 <==> Constant(s, pass)
  {
    var k := pass - from;
    assert s[..|s|] == s;
    assert Byte(mask, k) == 0 <==> Constant(s[..|s|], from + k);
  }

  lemma DifferenceFits(mask: nat, x: nat, y: nat)
    ensures AddDifference(mask, x, y, 2) < 0x1_0000
  {
    var high := AddDifference(mask / 256, x / 256, y / 256, 1);
    assert high < 256;
  }

  lemma PhaseHasTwoBytes(phase: nat, pass: nat)
    requires phase < 0x1_0000
    ensures pass >= 18 ==> Byte(phase, pass - 16) == 0
  {
    if pass >= 18 {
      assert Shift(phase, pass - 16) == Shift(phase / 256, pass - 17) == Shift(phase / 256 / 256, pass - 18);
      ShiftZero(pass - 18);
    }
  }

  lemma {:induction false} ShortIsSorted(s: seq<Event>, n: nat)
    requires |s| < 2
    ensures AllPasses(s, n) == s
  {
    hide StablePass;
    if n > 0 {
      ShortIsSorted(s, n - 1);
      ConstantPass(s, n - 1);
    }
  }

  /** Sorts the envelopes, skipping every pass whose byte never varies: the result of all 34 passes. */
  method SortEnvelopes(events: seq<Event>) returns (sorted: seq<Event>)
    ensures sorted == AllPasses(events, PASSES)
    ensures IsStableSort(sorted, events)
  {
    hide StablePass, Constant, IsStableSort;
    AllPassesSort(events);
    sorted := events;
    if |events| < 2 {
      ShortIsSorted(events, PASSES);
      return;
    }
    var varying := VaryingBytes(events);
    for pass := 0 to PASSES
      invariant sorted == AllPasses(events, pass)
    {
      if pass !in varying {
        SkippedPass(events, pass);
        continue;
      }
      PassesSort(events, pass);
      assert |multiset(sorted)| == |multiset(events)|;
      sorted := CountingPass(sorted, pass);
    }
  }
}
