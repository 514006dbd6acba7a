/** The sort of remote envelopes: one stable counting pass for each byte that varies. */
module RadixSort {
  import opened Events
  import opened Words

  const PASSES: nat := 34

  /** The byte that a pass sorts by: sequence, origin, phase, time, target, each from its low byte. */
  function Digit(e: Event, pass: nat): U8 {
    if pass < 8 then Byte(e.key.originSeq, pass)
    else if pass < 16 then Byte(e.key.originNode, pass - 8)
    else if pass < 18 then Byte(e.key.phase, pass - 16)
    else if pass < 26 then Byte(e.key.time, pass - 18)
    else if pass < PASSES then Byte(e.target, pass - 26)
    else 0
  }

  /** The events with one byte, in their order. */
  function Select(s: seq<Event>, pass: nat, b: nat): seq<Event> {
    if s == [] then []
    else
      var last := s[|s| - 1];
      Select(s[..|s| - 1], pass, b) + if Digit(last, pass) == b then [last] else []
  }

  /** The events with bytes below `b`, byte by byte. */
  function Buckets(s: seq<Event>, pass: nat, b: nat): seq<Event> {
    if b == 0 then [] else Buckets(s, pass, b - 1) + Select(s, pass, b - 1)
  }

  /** One stable pass. */
  function StablePass(s: seq<Event>, pass: nat): seq<Event> { Buckets(s, pass, 256) }

  /** The first `n` passes, none of them skipped. */
  function AllPasses(s: seq<Event>, n: nat): seq<Event> {
    if n == 0 then s else StablePass(AllPasses(s, n - 1), n - 1)
  }

  lemma SelectSnoc(s: seq<Event>, i: nat, pass: nat, b: nat)
    requires i < |s|
    ensures Select(s[..i + 1], pass, b) == Select(s[..i], pass, b) + if Digit(s[i], pass) == b then [s[i]] else []
  {
    assert s[..i + 1][..i] == s[..i];
  }

  lemma {:induction false} SelectGrows(s: seq<Event>, i: nat, pass: nat, b: nat)
    requires i <= |s|
    ensures |Select(s[..i], pass, b)| <= |Select(s, pass, b)|
    ensures i < |s| && Digit(s[i], pass) == b ==> |Select(s[..i], pass, b)| < |Select(s, pass, b)|
    decreases |s| - i
  {
    if i < |s| {
      SelectSnoc(s, i, pass, b);
      SelectGrows(s, i + 1, pass, b);
    } else {
      assert s[..i] == s;
    }
  }

  lemma {:induction false} BucketsGrow(s: seq<Event>, pass: nat, a: nat, b: nat)
    requires a <= b
    ensures |Buckets(s, pass, a)| <= |Buckets(s, pass, b)|
    decreases b - a
  {
    if a < b {
      BucketsGrow(s, pass, a, b - 1);
    }
  }

  lemma {:induction false} BucketsCount(s: seq<Event>, pass: nat, b: nat)
    requires s != []
    ensures |Buckets(s, pass, b)| ==
            |Buckets(s[..|s| - 1], pass, b)| + if Digit(s[|s| - 1], pass) < b then 1 else 0
  {
    if b > 0 {
      BucketsCount(s, pass, b - 1);
    }
  }

  /** A pass keeps the number of events. */
  lemma {:induction false} PassLength(s: seq<Event>, pass: nat)
    ensures |StablePass(s, pass)| == |s|
  {
    if s == [] {
      EmptyBuckets(pass, 256);
    } else {
      PassLength(s[..|s| - 1], pass);
      BucketsCount(s, pass, 256);
    }
  }

  lemma {:induction false} EmptyBuckets(pass: nat, b: nat)
    ensures Buckets([], pass, b) == []
  {
    if b > 0 {
      EmptyBuckets(pass, b - 1);
    }
  }

  /** Where the bucket of byte `b` starts in the sorted sequence. */
  function Base(s: seq<Event>, pass: nat, b: nat): nat { |Buckets(s, pass, b)| }

  lemma BaseStep(s: seq<Event>, pass: nat, b: nat)
    ensures Base(s, pass, b + 1) == Base(s, pass, b) + |Select(s, pass, b)|
  {
  }

  lemma BucketsStep(s: seq<Event>, pass: nat, b: nat)
    ensures Buckets(s, pass, b) == if b == 0 then [] else Buckets(s, pass, b - 1) + Select(s, pass, b - 1)
  {
  }

  /** The first `i` events of `s` are in their buckets. */
  ghost predicate Placed(s: seq<Event>, pass: nat, i: nat, scratch: seq<Event>)
    requires i <= |s|
  {
    && |scratch| == |s|
    && forall b {:trigger Select(s[..i], pass, b)} | 0 <= b < 256 ::
         var filled := |Select(s[..i], pass, b)|;
         && Base(s, pass, b) + filled <= |s|
         && scratch[Base(s, pass, b)..Base(s, pass, b) + filled] == Select(s[..i], pass, b)
  }

  /** A bucket has room for its next event, and that place is in no other bucket. */
  lemma RoomInBucket(s: seq<Event>, pass: nat, i: nat, b: nat, other: nat)
    requires i < |s| && b == Digit(s[i], pass) && other < 256
    ensures var place := Base(s, pass, b) + |Select(s[..i], pass, b)|;
            && place < Base(s, pass, b + 1) <= |s|
            && (other < b ==> Base(s, pass, other) + |Select(s[..i], pass, other)| <= Base(s, pass, b))
            && (b < other ==> place < Base(s, pass, other))
  {
    hide Buckets, Select;
    SelectGrows(s, i, pass, b);
    SelectGrows(s, i, pass, other);
    BaseStep(s, pass, b);
    BaseStep(s, pass, other);
    BucketsGrow(s, pass, b + 1, 256);
    PassLength(s, pass);
    if other < b {
      BucketsGrow(s, pass, other + 1, b);
    } else if b < other {
      BucketsGrow(s, pass, b + 1, other);
    }
  }

  lemma SliceAppend(t: seq<Event>, from: nat, n: nat, e: Event)
    requires from + n < |t|
    ensures t[from + n := e][from..from + n + 1] == t[from..from + n] + [e]
  {
  }

  lemma SliceKept(t: seq<Event>, place: nat, e: Event, from: nat, to: nat)
    requires place < |t| && from <= to <= |t| && (place < from || to <= place)
    ensures t[place := e][from..to] == t[from..to]
  {
  }

  lemma PlaceNext(s: seq<Event>, pass: nat, i: nat, scratch: seq<Event>)
    requires i < |s| && Placed(s, pass, i, scratch)
    ensures var b := Digit(s[i], pass);
            var place := Base(s, pass, b) + |Select(s[..i], pass, b)|;
            place < |s| && Placed(s, pass, i + 1, scratch[place := s[i]])
  {
    var b := Digit(s[i], pass);
    var place := Base(s, pass, b) + |Select(s[..i], pass, b)|;
    RoomInBucket(s, pass, i, b, b);
    var after := scratch[place := s[i]];
    forall c | 0 <= c < 256
      ensures var filled := |Select(s[..i + 1], pass, c)|;
              && Base(s, pass, c) + filled <= |s|
              && after[Base(s, pass, c)..Base(s, pass, c) + filled] == Select(s[..i + 1], pass, c)
    {
      RoomInBucket(s, pass, i, b, c);
      SelectSnoc(s, i, pass, c);
      var base, filled := Base(s, pass, c), |Select(s[..i], pass, c)|;
      assert scratch[base..base + filled] == Select(s[..i], pass, c);
      if c == b {
        SliceAppend(scratch, base, filled, s[i]);
      } else {
        SliceKept(scratch, place, s[i], base, base + filled);
      }
    }
  }

  lemma PlacedBucket(s: seq<Event>, pass: nat, scratch: seq<Event>, b: nat)
    requires Placed(s, pass, |s|, scratch) && b < 256
    ensures Base(s, pass, b) + |Select(s, pass, b)| <= |s|
    ensures scratch[Base(s, pass, b)..Base(s, pass, b) + |Select(s, pass, b)|] == Select(s, pass, b)
  {
    hide Buckets, Select, Base;
    assert s[..|s|] == s;
    assert Select(s[..|s|], pass, b) == Select(s, pass, b);
  }

  lemma {:induction false} PlacedIsSorted(s: seq<Event>, pass: nat, scratch: seq<Event>, b: nat)
    requires Placed(s, pass, |s|, scratch) && b <= 256
    ensures Base(s, pass, b) <= |s| && scratch[..Base(s, pass, b)] == Buckets(s, pass, b)
  {
    hide Buckets, Select, Base;
    if b == 0 {
      EmptyBase(s, pass);
      BucketsStep(s, pass, b);
    } else {
      PlacedIsSorted(s, pass, scratch, b - 1);
      PlacedBucket(s, pass, scratch, b - 1);
      BaseStep(s, pass, b - 1);
      BucketsStep(s, pass, b);
      var from, to := Base(s, pass, b - 1), Base(s, pass, b);
      assert scratch[..to] == scratch[..from] + scratch[from..to];
    }
  }

  /** Counts each byte and turns the counts into bucket starts. */
  method BucketStarts(events: seq<Event>, pass: nat) returns (counts: array<nat>)
    ensures fresh(counts) && counts.Length == 256
    ensures forall b | 0 <= b < 256 :: counts[b] == Base(events, pass, b)
  {
    hide Buckets, Select;
    counts := new nat[256](_ => 0);
    CountStart(events, pass);
    for i := 0 to |events|
      invariant forall b | 0 <= b < 256 :: counts[b] == |Select(events[..i], pass, b)|
    {
      var byte := Digit(events[i], pass);
      counts[byte] := counts[byte] + 1;
      CountNext(events, i, pass);
    }
    assert events[..|events|] == events;
    var offset := 0;
    EmptyBase(events, pass);
    for b := 0 to 256
      invariant offset == Base(events, pass, b)
      invariant forall c | 0 <= c < b :: counts[c] == Base(events, pass, c)
      invariant forall c | b <= c < 256 :: counts[c] == |Select(events, pass, c)|
    {
      BaseStep(events, pass, b);
      var next := offset + counts[b];
      counts[b] := offset;
      offset := next;
    }
  }

  /** One pass: scatters every event to the next free place of its bucket. */
  method CountingPass(events: seq<Event>, pass: nat) returns (sorted: seq<Event>)
    requires |events| > 0
    ensures sorted == StablePass(events, pass)
  {
    hide Buckets, Select, Placed;
    var counts := BucketStarts(events, pass);
    var scratch := new Event[|events|](_ => events[0]);
    NothingPlaced(events, pass, scratch[..]);
    for i := 0 to |events|
      invariant Placed(events, pass, i, scratch[..])
      invariant forall b | 0 <= b < 256 :: counts[b] == Base(events, pass, b) + |Select(events[..i], pass, b)|
    {
      var byte := Digit(events[i], pass);
      PlaceNext(events, pass, i, scratch[..]);
      CountNext(events, i, pass);
      ghost var before := scratch[..];
      scratch[counts[byte]] := events[i];
      assert scratch[..] == before[counts[byte] := events[i]];
      counts[byte] := counts[byte] + 1;
    }
    PlacedIsSorted(events, pass, scratch[..], 256);
    PassLength(events, pass);
    assert scratch[..] == scratch[..][..|events|];
    sorted := scratch[..];
  }

  lemma CountStart(s: seq<Event>, pass: nat)
    ensures forall b :: Select(s[..0], pass, b) == []
  {
  }

  lemma CountNext(s: seq<Event>, i: nat, pass: nat)
    requires i < |s|
    ensures forall b: nat :: |Select(s[..i + 1], pass, b)| ==
                             |Select(s[..i], pass, b)| + if Digit(s[i], pass) == b then 1 else 0
  {
    forall b: nat
      ensures |Select(s[..i + 1], pass, b)| ==
              |Select(s[..i], pass, b)| + if Digit(s[i], pass) == b then 1 else 0
    {
      SelectSnoc(s, i, pass, b);
    }
  }

  lemma EmptyBase(s: seq<Event>, pass: nat)
    ensures Base(s, pass, 0) == 0
  {
  }

  lemma NothingPlaced(s: seq<Event>, pass: nat, scratch: seq<Event>)
    requires |scratch| == |s|
    ensures Placed(s, pass, 0, scratch)
    ensures forall b :: Select(s[..0], pass, b) == []
  {
    forall b | 0 <= b < 256
      ensures Base(s, pass, b) <= |s|
    {
      BucketsGrow(s, pass, b, 256);
      PassLength(s, pass);
    }
  }
}
