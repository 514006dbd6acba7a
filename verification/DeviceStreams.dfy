/** Event streams in one flat plane: where each ring lies, and how records enter it. */
module DeviceStreams {
  import opened Basics
  import opened Events
  import opened Planes
  import opened Words
  import opened EventRecord
  import opened Compaction

  function RecordWords(stream: nat, serviceBase: nat, generatorBase: nat): nat {
    StoredWords(StreamClass(stream, serviceBase, generatorBase))
  }

  /** The words that the first `k` streams take. */
  function OffsetOf(capacities: seq<U64>, serviceBase: nat, generatorBase: nat, k: nat): nat
    requires k <= |capacities|
  {
    if k == 0 then 0
    else
      assert capacities[k - 1] * RecordWords(k - 1, serviceBase, generatorBase) >= 0;
      OffsetOf(capacities, serviceBase, generatorBase, k - 1) + capacities[k - 1] * RecordWords(k - 1, serviceBase, generatorBase)
  }

  /** Streams lie one after the other. */
  lemma {:induction false} StreamsAreApart(capacities: seq<U64>, serviceBase: nat, generatorBase: nat, j: nat, k: nat)
    requires j <= k <= |capacities|
    ensures OffsetOf(capacities, serviceBase, generatorBase, j) <= OffsetOf(capacities, serviceBase, generatorBase, k)
    ensures j < k ==>
              OffsetOf(capacities, serviceBase, generatorBase, j) + capacities[j] * RecordWords(j, serviceBase, generatorBase) <=
              OffsetOf(capacities, serviceBase, generatorBase, k)
    decreases k
  {
    if j < k {
      StreamsAreApart(capacities, serviceBase, generatorBase, j, k - 1);
      assert capacities[k - 1] * RecordWords(k - 1, serviceBase, generatorBase) >= 0;
    }
  }

  lemma OffsetStep(capacities: seq<U64>, serviceBase: nat, generatorBase: nat, k: nat)
    requires k < |capacities|
    ensures OffsetOf(capacities, serviceBase, generatorBase, k + 1) ==
            OffsetOf(capacities, serviceBase, generatorBase, k) + capacities[k] * RecordWords(k, serviceBase, generatorBase)
    ensures capacities[k] * RecordWords(k, serviceBase, generatorBase) >= 0
  {
  }

  lemma NoOffset(capacities: seq<U64>, serviceBase: nat, generatorBase: nat)
    ensures OffsetOf(capacities, serviceBase, generatorBase, 0) == 0
  {
  }

  /** Writes the offset and capacity of every stream into its metadata row. Fails exactly when the
      streams do not fit the address space. */
  method AssignStreamOffsets(meta: array<U64>, capacities: seq<U64>, serviceBase: nat, generatorBase: nat)
    returns (total: Option<U64>)
    requires meta.Length == |capacities| * ARENA_META_WORDS
    modifies meta
    ensures total.Some? <==> OffsetOf(capacities, serviceBase, generatorBase, |capacities|) <= U64_MAX
    ensures total.Some? ==>
              && total.value == OffsetOf(capacities, serviceBase, generatorBase, |capacities|)
              && forall k | 0 <= k < |capacities| ::
                   && meta[ARENA_META_WORDS * k] == OffsetOf(capacities, serviceBase, generatorBase, k)
                   && meta[ARENA_META_WORDS * k + 1] == capacities[k]
    ensures forall k | 0 <= k < |capacities| ::
              && meta[ARENA_META_WORDS * k + 2] == old(meta[ARENA_META_WORDS * k + 2])
              && meta[ARENA_META_WORDS * k + 3] == old(meta[ARENA_META_WORDS * k + 3])
  {
    hide OffsetOf, RecordWords;
    var offset: U64 := 0;
    NoOffset(capacities, serviceBase, generatorBase);
    for k := 0 to |capacities|
      invariant offset == OffsetOf(capacities, serviceBase, generatorBase, k)
      invariant forall j | 0 <= j < k ::
                  && meta[ARENA_META_WORDS * j] == OffsetOf(capacities, serviceBase, generatorBase, j)
                  && meta[ARENA_META_WORDS * j + 1] == capacities[j]
      invariant forall j | 0 <= j < |capacities| ::
                  && meta[ARENA_META_WORDS * j + 2] == old(meta[ARENA_META_WORDS * j + 2])
                  && meta[ARENA_META_WORDS * j + 3] == old(meta[ARENA_META_WORDS * j + 3])
    {
      var base := ARENA_META_WORDS * k;
      meta[base] := offset;
      meta[base + 1] := capacities[k];
      var words := capacities[k] * RecordWords(k, serviceBase, generatorBase);
      OffsetStep(capacities, serviceBase, generatorBase, k);
      StreamsAreApart(capacities, serviceBase, generatorBase, k + 1, |capacities|);
      if words > U64_MAX || offset + words > U64_MAX {
        return None;
      }
      offset := offset + words;
    }
    total := Some(offset);
  }

  /** In a ring with room, the next place is none of the live ones. */
  lemma FreshSlot(e: Entity, i: nat)
    requires e.head < e.capacity && i < e.count < e.capacity
    ensures Physical(Ring, e, i) != Physical(Ring, e, e.count)
    ensures Physical(Ring, e, i) < e.capacity && Physical(Ring, e, e.count) < e.capacity
  {
    WrapsOnce(e.head + i, e.capacity);
    WrapsOnce(e.head + e.count, e.capacity);
  }

  /** A ring that lies in the plane and is in use. */
  predicate RingLies(width: nat, e: Entity, plane: nat) {
    Lies(Ring, width, e, plane) && e.count <= e.capacity
  }

  /** Appends a record to a ring of the plane, or reports that the ring is full. */
  method RingPush(plane: array<U64>, width: nat, e: Entity, record: seq<U64>) returns (r: Option<Entity>)
    requires RingLies(width, e, plane.Length) && |record| == width
    modifies plane
    ensures r.Some? <==> e.count < e.capacity
    ensures r.None? ==> plane[..] == old(plane[..])
    ensures r.Some? ==>
              && r.value == e.(count := e.count + 1) && RingLies(width, r.value, plane.Length)
              && RingLies(width, e, |old(plane[..])|)
              && LiveRecords(Ring, width, r.value, plane[..]) == LiveRecords(Ring, width, e, old(plane[..])) + [record]
              && AgreeOutside(old(plane[..]), plane[..], e.source, e.source + e.capacity * width)
  {
    if e.count == e.capacity {
      return None;
    }
    var next := e.(count := e.count + 1);
    RecordLies(Ring, width, next, plane.Length, e.count);
    var to := Place(Ring, width, next, e.count);
    ghost var before := plane[..];
    CopyWords(record, 0, plane, to, width);
    assert record[0..width] == record;
    PushedRecords(before, plane[..], width, e, record);
    InsideRing(width, next, plane.Length);
    return Some(next);
  }

  /** Appends a packet record to a switch queue, which may keep a byte total. Refused exactly when the
      ring is full or the total would overflow. */
  method QueuePush(plane: array<U64>, e: Entity, record: Record, bytes: U64, trackBytes: bool)
    returns (r: Option<(Entity, U64)>)
    requires RingLies(EVENT_WORDS, e, plane.Length)
    modifies plane
    ensures r.Some? <==> e.count < e.capacity && (trackBytes ==> bytes + record[9] <= U64_MAX)
    ensures r.None? ==> plane[..] == old(plane[..])
    ensures r.Some? ==>
              && r.value == (e.(count := e.count + 1), if trackBytes then bytes + record[9] else bytes)
              && RingLies(EVENT_WORDS, r.value.0, plane.Length) && RingLies(EVENT_WORDS, e, |old(plane[..])|)
              && LiveRecords(Ring, EVENT_WORDS, r.value.0, plane[..]) ==
                 LiveRecords(Ring, EVENT_WORDS, e, old(plane[..])) + [record]
              && AgreeOutside(old(plane[..]), plane[..], e.source, e.source + e.capacity * EVENT_WORDS)
  {
    hide LiveRecords, Lies, AgreeOutside;
    if e.count == e.capacity || (trackBytes && bytes + record[9] > U64_MAX) {
      return None;
    }
    var pushed := RingPush(plane, EVENT_WORDS, e, record);
    return Some((pushed.value, if trackBytes then bytes + record[9] else bytes));
  }

  lemma InsideRing(width: nat, next: Entity, plane: nat)
    requires RingLies(width, next, plane) && next.count > 0
    ensures var to := Place(Ring, width, next, next.count - 1);
            next.source <= to && to + width <= next.source + next.capacity * width
  {
    var slot := Physical(Ring, next, next.count - 1);
    assert slot < next.capacity;
    OneMore(slot, next.capacity, width);
    assert slot * width >= 0;
  }

  /** Writing the next record of a ring appends it to what the ring holds. */
  lemma PushedRecords(before: seq<U64>, after: seq<U64>, width: nat, e: Entity, record: seq<U64>)
    requires |before| == |after| && RingLies(width, e, |before|) && e.count < e.capacity && |record| == width
    requires var next := e.(count := e.count + 1);
             var to := Place(Ring, width, next, e.count);
             && RingLies(width, next, |before|) && to + width <= |after|
             && AgreeOutside(before, after, to, to + width) && after[to..to + width] == record
    ensures LiveRecords(Ring, width, e.(count := e.count + 1), after) == LiveRecords(Ring, width, e, before) + [record]
  {
    var next := e.(count := e.count + 1);
    var old', new' := LiveRecords(Ring, width, e, before), LiveRecords(Ring, width, next, after);
    forall i | 0 <= i < e.count
      ensures new'[i] == old'[i]
    {
      FreshSlot(e, i);
      SlotsApart(width, e, i);
      RecordLies(Ring, width, e, |before|, i);
      var from, to := Place(Ring, width, e, i), Place(Ring, width, next, e.count);
      SliceAgrees(before, after, to, to + width, from, from + width);
    }
    assert new'[e.count] == record;
  }

  lemma SlotsApart(width: nat, e: Entity, i: nat)
    requires Physical(Ring, e, i) != Physical(Ring, e, e.count)
    ensures var a, b := Place(Ring, width, e, i), Place(Ring, width, e, e.count);
            a + width <= b || b + width <= a
  {
    var a, b := Physical(Ring, e, i), Physical(Ring, e, e.count);
    if a < b {
      OneMore(a, b, width);
    } else {
      OneMore(b, a, width);
    }
  }

  lemma SlotBelow(e: Entity, i: nat)
    ensures Physical(Ring, e, i) < AtLeastOne(e.capacity)
  {
  }

  /** A push into one ring leaves a ring that lies elsewhere as it was. */
  lemma OtherRingsKept(before: seq<U64>, after: seq<U64>, from: nat, to: nat, width: nat, e: Entity)
    requires |before| == |after| && RingLies(width, e, |before|) && AgreeOutside(before, after, from, to)
    requires e.source + e.capacity * width <= from || to <= e.source
    ensures LiveRecords(Ring, width, e, after) == LiveRecords(Ring, width, e, before)
  {
    hide RingSlot;
    var was, now := LiveRecords(Ring, width, e, before), LiveRecords(Ring, width, e, after);
    forall i | 0 <= i < e.count
      ensures was[i] == now[i]
    {
      RecordLies(Ring, width, e, |before|, i);
      SlotBelow(e, i);
      OneMore(Physical(Ring, e, i), AtLeastOne(e.capacity), width);
      assert Physical(Ring, e, i) * width >= 0;
      var place := Place(Ring, width, e, i);
      SliceAgrees(before, after, from, to, place, place + width);
    }
  }

  /** The stream holds these events in their stored form. */
  ghost predicate HoldsEvents(plane: seq<U64>, c: StoredClass, e: Entity, events: seq<Record>)
    requires Lies(Ring, StoredWords(c), e, |plane|)
  {
    && e.count == |events|
    && forall i | 0 <= i < |events| :: LiveRecords(Ring, StoredWords(c), e, plane)[i] == Encode(events[i], c)
  }

  /** Channels take eleven words a record, services five and generators ten, in this order: with rings of one
      capacity the streams lie where those counts say. */
  lemma {:induction false} EqualRings(capacities: seq<U64>, capacity: U64, serviceBase: nat, generatorBase: nat, k: nat)
    requires k <= |capacities| && serviceBase <= generatorBase
    requires forall i | 0 <= i < |capacities| :: capacities[i] == capacity
    ensures var channels, others := if k < serviceBase then k else serviceBase, if k < generatorBase then k else generatorBase;
            OffsetOf(capacities, serviceBase, generatorBase, k) ==
            capacity * (11 * channels + 5 * (others - channels) + 10 * (k - others))
    decreases k
  {
    if k > 0 {
      EqualRings(capacities, capacity, serviceBase, generatorBase, k - 1);
      var words := RecordWords(k - 1, serviceBase, generatorBase);
      var c, o := if k - 1 < serviceBase then k - 1 else serviceBase, if k - 1 < generatorBase then k - 1 else generatorBase;
      Distributes(capacity, 11 * c + 5 * (o - c) + 10 * (k - 1 - o), words);
    }
  }
}
