/** Streams from layout to readback: offsets are assigned, encoded events are pushed into the rings in
any order, the live records are gathered by class and decoded. */
module StreamRoundTrip {
  import opened Events
  import opened Planes
  import opened Words
  import opened EventRecord
  import opened Compaction
  import opened DeviceStreams

  /** Channel streams come first, then service streams, then generator streams. */
  datatype Layout = Layout(capacities: seq<U64>, serviceBase: nat, generatorBase: nat)

  ghost predicate ValidLayout(l: Layout) { l.serviceBase <= l.generatorBase <= |l.capacities| }

  datatype Push = Push(stream: nat, event: Record)

  /** What the place of a stream tells of its events: its node, its flow and the packet in service. */
  datatype Home = Home(node: U64, flow: U64, service: Record)

  function ClassOf(l: Layout, k: nat): StoredClass { StreamClass(k, l.serviceBase, l.generatorBase) }

  function Offset(l: Layout, k: nat): nat
    requires k <= |l.capacities|
  {
    OffsetOf(l.capacities, l.serviceBase, l.generatorBase, k)
  }

  /** The events pushed into stream `k`, in their order. */
  function EventsOf(pushes: seq<Push>, k: nat): seq<Record> {
    if pushes == [] then []
    else
      var last := pushes[|pushes| - 1];
      EventsOf(pushes[..|pushes| - 1], k) + if last.stream == k then [last.event] else []
  }

  lemma {:induction false} EventsGrow(pushes: seq<Push>, n: nat, k: nat)
    requires n <= |pushes|
    ensures |EventsOf(pushes[..n], k)| <= |EventsOf(pushes, k)|
    decreases |pushes| - n
  {
    if n < |pushes| {
      EventsGrow(pushes, n + 1, k);
      assert pushes[..n + 1][..n] == pushes[..n];
    } else {
      assert pushes[..n] == pushes;
    }
  }

  lemma EventsNext(pushes: seq<Push>, n: nat, k: nat)
    requires n < |pushes|
    ensures EventsOf(pushes[..n + 1], k) == EventsOf(pushes[..n], k) + if pushes[n].stream == k then [pushes[n].event] else []
  {
    assert pushes[..n + 1][..n] == pushes[..n];
  }

  /** The metadata row of stream `k`. */
  function EntityAt(meta: seq<U64>, k: nat): Entity
    requires ARENA_META_WORDS * k + 3 < |meta|
  {
    Entity(meta[ARENA_META_WORDS * k], meta[ARENA_META_WORDS * k + 1], meta[ARENA_META_WORDS * k + 2], meta[ARENA_META_WORDS * k + 3])
  }

  /** The ring of stream `k` has its place in the plane and holds exactly these events. */
  ghost predicate StreamHolds(l: Layout, meta: seq<U64>, plane: seq<U64>, k: nat, events: seq<Record>)
    requires k < |l.capacities| && |meta| == |l.capacities| * ARENA_META_WORDS
  {
    var e := EntityAt(meta, k);
    && e.source == Offset(l, k) && e.capacity == l.capacities[k]
    && RingLies(StoredWords(ClassOf(l, k)), e, |plane|)
    && HoldsEvents(plane, ClassOf(l, k), e, events)
  }

  ghost predicate AllHold(l: Layout, meta: seq<U64>, plane: seq<U64>, pushes: seq<Push>)
    requires |meta| == |l.capacities| * ARENA_META_WORDS
  {
    forall k: nat | k < |l.capacities| :: StreamHolds(l, meta, plane, k, EventsOf(pushes, k))
  }

  /** Rings that were only laid out are empty. */
  lemma EmptyStream(l: Layout, meta: seq<U64>, plane: seq<U64>, k: nat)
    requires ValidLayout(l) && k < |l.capacities| && |meta| == |l.capacities| * ARENA_META_WORDS
    requires |plane| == Offset(l, |l.capacities|)
    requires meta[ARENA_META_WORDS * k] == Offset(l, k) && meta[ARENA_META_WORDS * k + 1] == l.capacities[k]
    requires meta[ARENA_META_WORDS * k + 2] < AtLeastOne(l.capacities[k]) && meta[ARENA_META_WORDS * k + 3] == 0
    ensures StreamHolds(l, meta, plane, k, [])
  {
    hide OffsetOf, LiveRecords;
    StreamsAreApart(l.capacities, l.serviceBase, l.generatorBase, k, |l.capacities|);
  }

  /** A push into another stream leaves a stream as it was. */
  lemma OtherStreamKept(l: Layout, meta: seq<U64>, meta': seq<U64>, plane: seq<U64>, plane': seq<U64>, j: nat, k: nat,
                        events: seq<Record>)
    requires ValidLayout(l) && j < |l.capacities| && k < |l.capacities| && j != k
    requires |meta| == |meta'| == |l.capacities| * ARENA_META_WORDS
    requires StreamHolds(l, meta, plane, k, events) && EntityAt(meta', k) == EntityAt(meta, k)
    requires AgreeOutside(plane, plane', Offset(l, j), Offset(l, j) + l.capacities[j] * StoredWords(ClassOf(l, j)))
    ensures StreamHolds(l, meta', plane', k, events)
  {
    hide OffsetOf, LiveRecords, StoredWords, StreamClass, Lies, Encode;
    if j < k {
      StreamsAreApart(l.capacities, l.serviceBase, l.generatorBase, j, k);
    } else {
      StreamsAreApart(l.capacities, l.serviceBase, l.generatorBase, k, j);
    }
    OtherRingsKept(plane, plane', Offset(l, j), Offset(l, j) + l.capacities[j] * StoredWords(ClassOf(l, j)),
                   StoredWords(ClassOf(l, k)), EntityAt(meta, k));
  }

  lemma PushedStream(l: Layout, meta: seq<U64>, meta': seq<U64>, plane: seq<U64>, plane': seq<U64>, j: nat,
                     events: seq<Record>, event: Record)
    requires j < |l.capacities| && |meta| == |meta'| == |l.capacities| * ARENA_META_WORDS && |plane| == |plane'|
    requires StreamHolds(l, meta, plane, j, events)
    requires var e, width := EntityAt(meta, j), StoredWords(ClassOf(l, j));
             && e.count < e.capacity && EntityAt(meta', j) == e.(count := e.count + 1)
             && RingLies(width, EntityAt(meta', j), |plane'|)
             && LiveRecords(Ring, width, EntityAt(meta', j), plane') ==
                LiveRecords(Ring, width, e, plane) + [Encode(event, ClassOf(l, j))]
    ensures StreamHolds(l, meta', plane', j, events + [event])
  {
    hide OffsetOf, LiveRecords, Encode, Lies;
  }

  /** Rows of other streams are elsewhere. */
  lemma RowsApart(meta: seq<U64>, j: nat, k: nat, count: U64, n: nat)
    requires |meta| == n * ARENA_META_WORDS && j < n && k < n
    ensures var meta' := meta[ARENA_META_WORDS * j + 3 := count];
            EntityAt(meta', k) == if k == j then EntityAt(meta, k).(count := count) else EntityAt(meta, k)
  {
  }

  /** Pushes one encoded event into its ring. Refuses exactly when the ring is full. */
  method PushEvent(l: Layout, meta: array<U64>, plane: array<U64>, push: Push, ghost before: seq<Push>) returns (ok: bool)
    requires ValidLayout(l) && meta != plane && meta.Length == |l.capacities| * ARENA_META_WORDS
    requires push.stream < |l.capacities| && AllHold(l, meta[..], plane[..], before)
    modifies meta, plane
    ensures ok <==> |EventsOf(before, push.stream)| < l.capacities[push.stream]
    ensures ok ==> AllHold(l, meta[..], plane[..], before + [push])
  {
    hide OffsetOf, LiveRecords, StoredWords, Encode, EventsOf, StreamHolds, EntityAt, Lies, RingLies;
    var j, c := push.stream, ClassOf(l, push.stream);
    ghost var meta0, plane0 := meta[..], plane[..];
    assert StreamHolds(l, meta0, plane0, j, EventsOf(before, j));
    HeldRing(l, meta0, plane0, j, EventsOf(before, j));
    var e := EntityAt(meta[..], j);
    var pushed := RingPush(plane, StoredWords(c), e, Encode(push.event, c));
    if pushed.None? {
      return false;
    }
    meta[ARENA_META_WORDS * j + 3] := pushed.value.count;
    assert meta[..] == meta0[ARENA_META_WORDS * j + 3 := pushed.value.count];
    forall k: nat | k < |l.capacities|
      ensures StreamHolds(l, meta[..], plane[..], k, EventsOf(before + [push], k))
    {
      RowsApart(meta0, j, k, pushed.value.count, |l.capacities|);
      EventsSnoc(before, push, k);
      assert StreamHolds(l, meta0, plane0, k, EventsOf(before, k));
      if k == j {
        PushedStream(l, meta0, meta[..], plane0, plane[..], j, EventsOf(before, j), push.event);
      } else {
        OtherStreamKept(l, meta0, meta[..], plane0, plane[..], j, k, EventsOf(before, k));
      }
    }
    return true;
  }

  lemma EventsSnoc(before: seq<Push>, push: Push, k: nat)
    ensures EventsOf(before + [push], k) == if push.stream == k then EventsOf(before, k) + [push.event] else EventsOf(before, k)
  {
    assert (before + [push])[..|before|] == before;
  }

  lemma HeldRing(l: Layout, meta: seq<U64>, plane: seq<U64>, k: nat, events: seq<Record>)
    requires k < |l.capacities| && |meta| == |l.capacities| * ARENA_META_WORDS && StreamHolds(l, meta, plane, k, events)
    ensures var e := EntityAt(meta, k);
            && RingLies(StoredWords(ClassOf(l, k)), e, |plane|) && e.count == |events| && e.capacity == l.capacities[k]
            && e.source == Offset(l, k)
  {
  }

  /** The rows of the streams from `lo` to `hi`. */
  function Rows(meta: seq<U64>, lo: nat, hi: nat): seq<Entity>
    requires lo <= hi && ARENA_META_WORDS * hi <= |meta|
  {
    seq(hi - lo, i requires 0 <= i < hi - lo => EntityAt(meta, lo + i))
  }

  /** The live records of streams of one width fit their rings, so they fit the words from the first to the last. */
  lemma {:induction false} RecordsFit(l: Layout, meta: seq<U64>, plane: seq<U64>, pushes: seq<Push>, lo: nat, hi: nat, c: StoredClass, n: nat)
    requires ValidLayout(l) && |meta| == |l.capacities| * ARENA_META_WORDS && AllHold(l, meta, plane, pushes)
    requires lo <= hi <= |l.capacities| && n <= hi - lo && forall k | lo <= k < hi :: ClassOf(l, k) == c
    ensures CountBefore(Rows(meta, lo, hi), n) * StoredWords(c) + Offset(l, lo) <= Offset(l, lo + n)
    decreases n
  {
    hide OffsetOf, LiveRecords, StreamHolds, EventsOf, EntityAt, Lies;
    if n > 0 {
      RecordsFit(l, meta, plane, pushes, lo, hi, c, n - 1);
      var k := lo + (n - 1);
      assert StreamHolds(l, meta, plane, k, EventsOf(pushes, k));
      HeldRing(l, meta, plane, k, EventsOf(pushes, k));
      CountOneMore(Rows(meta, lo, hi), n - 1);
      OffsetStep(l.capacities, l.serviceBase, l.generatorBase, k);
      MoreWords(CountBefore(Rows(meta, lo, hi), n - 1), EntityAt(meta, k).count, l.capacities[k], StoredWords(c));
    }
  }

  lemma MoreWords(before: nat, count: nat, capacity: nat, width: nat)
    requires count <= capacity
    ensures (before + count) * width <= before * width + capacity * width
  {
    Scaled(count, capacity, width);
    assert (before + count) * width == before * width + count * width;
  }

  /** What decoding a stored event gives: the event, exactly if its place tells what was not stored. */
  function ReadBack(event: Record, c: StoredClass, home: Home): Record {
    Decode(Encode(event, c), c, home.node, home.flow, home.service)
  }

  /** Decodes the gathered records of one stream. */
  method DecodeStream(p: Plan, plane: seq<U64>, out: seq<U64>, k: nat, c: StoredClass, home: Home, ghost events: seq<Record>)
    returns (decoded: seq<Record>)
    requires ValidPlan(p, |plane|) && p.shape.Ring? && p.width == StoredWords(c) && k < |p.entities|
    requires HoldsEvents(plane, c, p.entities[k], events) && Gathered(p, plane, out, k)
    ensures |decoded| == |events| && forall i | 0 <= i < |events| :: decoded[i] == ReadBack(events[i], c, home)
  {
    hide LiveRecords, Encode, Decode, StoredWords, CountBefore, Lies;
    decoded := [];
    for i := 0 to p.entities[k].count
      invariant |decoded| == i && forall j | 0 <= j < i :: decoded[j] == ReadBack(events[j], c, home)
    {
      assert RecordGathered(p, plane, out, k, i);
      var at := (p.destinations[k] + i) * p.width;
      decoded := decoded + [Decode(out[at..at + p.width], c, home.node, home.flow, home.service)];
    }
  }

  /** The decoded lists of the streams from `lo` on are what reading their events back gives. */
  ghost predicate ReadsBack(l: Layout, pushes: seq<Push>, homes: seq<Home>, lo: nat, decoded: seq<seq<Record>>) {
    forall i: nat | i < |decoded| :: StreamReads(l, pushes, homes, lo + i, decoded[i])
  }

  ghost predicate StreamReads(l: Layout, pushes: seq<Push>, homes: seq<Home>, k: nat, decoded: seq<Record>) {
    && k < |homes| && |decoded| == |EventsOf(pushes, k)|
    && forall i | 0 <= i < |decoded| :: decoded[i] == ReadBack(EventsOf(pushes, k)[i], ClassOf(l, k), homes[k])
  }

  ghost predicate Covers(order: seq<nat>, n: nat) { (forall k | k in order :: k < n) && forall k | 0 <= k < n :: k in order }

  /** Plans, gathers in the given order and decodes the streams of one class. It is never refused. */
  method ReadClass(l: Layout, meta: seq<U64>, plane: seq<U64>, lo: nat, hi: nat, c: StoredClass, order: seq<nat>,
                   homes: seq<Home>, ghost pushes: seq<Push>) returns (lists: seq<seq<Record>>)
    requires ValidLayout(l) && |meta| == |l.capacities| * ARENA_META_WORDS && |homes| == |l.capacities|
    requires AllHold(l, meta, plane, pushes) && |plane| == Offset(l, |l.capacities|) <= U64_MAX
    requires lo <= hi <= |l.capacities| && (forall k | lo <= k < hi :: ClassOf(l, k) == c) && Covers(order, hi - lo)
    ensures |lists| == hi - lo && ReadsBack(l, pushes, homes, lo, lists)
  {
    hide OffsetOf, LiveRecords, StreamHolds, EventsOf, EntityAt, Lies, CountBefore, Gathered, HoldsEvents, Encode, Decode,
         StreamReads, ClassOf;
    var entities := Rows(meta, lo, hi);
    forall i | 0 <= i < |entities|
      ensures Lies(Ring, StoredWords(c), entities[i], |plane|)
    {
      assert StreamHolds(l, meta, plane, lo + i, EventsOf(pushes, lo + i));
      HeldRing(l, meta, plane, lo + i, EventsOf(pushes, lo + i));
    }
    RecordsFit(l, meta, plane, pushes, lo, hi, c, hi - lo);
    StreamsAreApart(l.capacities, l.serviceBase, l.generatorBase, hi, |l.capacities|);
    var plan := NewPlan(Ring, StoredWords(c), entities, |plane|);
    var gathered := Gather(plan.value, plane, order);
    var out := gathered[..];
    lists := [];
    for i: nat := 0 to hi - lo
      invariant |lists| == i && ReadsBack(l, pushes, homes, lo, lists)
    {
      assert StreamHolds(l, meta, plane, lo + i, EventsOf(pushes, lo + i));
      HeldEvents(l, meta, plane, lo + i, EventsOf(pushes, lo + i));
      assert i in order;
      var list := DecodeStream(plan.value, plane, out, i, c, homes[lo + i], EventsOf(pushes, lo + i));
      StreamIsRead(l, pushes, homes, lo + i, c, list);
      lists := lists + [list];
    }
  }

  lemma HeldEvents(l: Layout, meta: seq<U64>, plane: seq<U64>, k: nat, events: seq<Record>)
    requires k < |l.capacities| && |meta| == |l.capacities| * ARENA_META_WORDS && StreamHolds(l, meta, plane, k, events)
    ensures Lies(Ring, StoredWords(ClassOf(l, k)), EntityAt(meta, k), |plane|)
    ensures HoldsEvents(plane, ClassOf(l, k), EntityAt(meta, k), events)
  {
  }

  lemma StreamIsRead(l: Layout, pushes: seq<Push>, homes: seq<Home>, k: nat, c: StoredClass, list: seq<Record>)
    requires k < |homes| && ClassOf(l, k) == c && |list| == |EventsOf(pushes, k)|
    requires forall i | 0 <= i < |list| :: list[i] == ReadBack(EventsOf(pushes, k)[i], c, homes[k])
    ensures StreamReads(l, pushes, homes, k, list)
  {
  }

  /** Every ring has room for the events pushed into it. */
  ghost predicate HasRoom(l: Layout, pushes: seq<Push>) {
    forall k: nat | k < |l.capacities| :: |EventsOf(pushes, k)| <= l.capacities[k]
  }

  /** The rows of all streams, their rings empty, and the words they take. */
  method LayStreams(l: Layout, heads: seq<U64>) returns (meta: array<U64>, total: Option<U64>)
    requires ValidLayout(l) && |heads| == |l.capacities|
    ensures fresh(meta) && meta.Length == |l.capacities| * ARENA_META_WORDS
    ensures total.Some? <==> Offset(l, |l.capacities|) <= U64_MAX
    ensures total.Some? ==>
              && total.value == Offset(l, |l.capacities|)
              && forall k | 0 <= k < |l.capacities| ::
                   && meta[ARENA_META_WORDS * k] == Offset(l, k) && meta[ARENA_META_WORDS * k + 1] == l.capacities[k]
                   && meta[ARENA_META_WORDS * k + 2] == heads[k] && meta[ARENA_META_WORDS * k + 3] == 0
  {
    hide OffsetOf;
    var n := |l.capacities|;
    meta := new U64[n * ARENA_META_WORDS](_ => 0);
    for k := 0 to n
      invariant forall j | 0 <= j < k :: meta[ARENA_META_WORDS * j + 2] == heads[j]
      invariant forall j | 0 <= j < n :: meta[ARENA_META_WORDS * j + 3] == 0
    {
      meta[ARENA_META_WORDS * k + 2] := heads[k];
    }
    total := AssignStreamOffsets(meta, l.capacities, l.serviceBase, l.generatorBase);
  }

  /** Pushes events in the order given, whatever streams they go to. */
  method PushAll(l: Layout, meta: array<U64>, plane: array<U64>, pushes: seq<Push>) returns (ok: bool)
    requires ValidLayout(l) && meta != plane && meta.Length == |l.capacities| * ARENA_META_WORDS
    requires forall i | 0 <= i < |pushes| :: pushes[i].stream < |l.capacities|
    requires AllHold(l, meta[..], plane[..], []) && HasRoom(l, [])
    modifies meta, plane
    ensures ok <==> HasRoom(l, pushes)
    ensures ok ==> AllHold(l, meta[..], plane[..], pushes)
  {
    hide EventsOf, AllHold, HasRoom;
    assert pushes[..0] == [];
    for i := 0 to |pushes|
      invariant AllHold(l, meta[..], plane[..], pushes[..i]) && RoomSoFar(l, pushes, i)
    {
      RoomNext(l, pushes, i);
      ok := PushEvent(l, meta, plane, pushes[i], pushes[..i]);
      if !ok {
        return;
      }
      assert pushes[..i + 1] == pushes[..i] + [pushes[i]];
    }
    assert pushes[..|pushes|] == pushes;
    ok := true;
  }

  /** Lays out the streams, pushes the events in the order given, whatever streams they go to, and reads
      every stream back. It is refused exactly when the streams do not fit the address space or a ring
      has no room. Otherwise each stream gives back its own events, in their order, each as it was
      exactly if its place tells the words that are not stored. */
  method StoreAndRead(l: Layout, heads: seq<U64>, pushes: seq<Push>, orders: seq<seq<nat>>, homes: seq<Home>)
    returns (r: Option<seq<seq<Record>>>)
    requires ValidLayout(l) && |heads| == |homes| == |l.capacities|
    requires forall k | 0 <= k < |heads| :: heads[k] < AtLeastOne(l.capacities[k])
    requires forall i | 0 <= i < |pushes| :: pushes[i].stream < |l.capacities|
    requires |orders| == 3 && Covers(orders[0], l.serviceBase) && Covers(orders[1], l.generatorBase - l.serviceBase)
    requires Covers(orders[2], |l.capacities| - l.generatorBase)
    ensures r.Some? <==> Offset(l, |l.capacities|) <= U64_MAX && HasRoom(l, pushes)
    ensures r.Some? ==> |r.value| == |l.capacities|
    ensures r.Some? ==> forall k | 0 <= k < |l.capacities| ::
              && |r.value[k]| == |EventsOf(pushes, k)|
              && forall i | 0 <= i < |r.value[k]| ::
                   var event := EventsOf(pushes, k)[i];
                   r.value[k][i] == event <==>
                   Restorable(event, ClassOf(l, k), homes[k].node, homes[k].flow, homes[k].service)
  {
    hide OffsetOf, StreamHolds, EventsOf, AllHold, StreamReads, ClassOf, Restorable, HasRoom, ReadsBack;
    var n := |l.capacities|;
    var meta, total := LayStreams(l, heads);
    if total.None? {
      return None;
    }
    var plane := new U64[total.value](_ => 0);
    StartsEmpty(l, meta[..], plane[..]);
    var ok := PushAll(l, meta, plane, pushes);
    if !ok {
      return None;
    }
    ClassRanges(l);
    var channels := ReadClass(l, meta[..], plane[..], 0, l.serviceBase, Channel, orders[0], homes, pushes);
    var services := ReadClass(l, meta[..], plane[..], l.serviceBase, l.generatorBase, Service, orders[1], homes, pushes);
    var generators := ReadClass(l, meta[..], plane[..], l.generatorBase, n, Generator, orders[2], homes, pushes);
    var lists := channels + services + generators;
    forall k | 0 <= k < n
      ensures StreamReads(l, pushes, homes, k, lists[k])
    {
      PartReads(l, pushes, homes, channels, services, generators, k);
    }
    EachAsItWas(l, pushes, homes, lists);
    return Some(lists);
  }

  lemma StartsEmpty(l: Layout, meta: seq<U64>, plane: seq<U64>)
    requires ValidLayout(l) && |meta| == |l.capacities| * ARENA_META_WORDS && |plane| == Offset(l, |l.capacities|)
    requires forall k | 0 <= k < |l.capacities| ::
               && meta[ARENA_META_WORDS * k] == Offset(l, k) && meta[ARENA_META_WORDS * k + 1] == l.capacities[k]
               && meta[ARENA_META_WORDS * k + 2] < AtLeastOne(l.capacities[k]) && meta[ARENA_META_WORDS * k + 3] == 0
    ensures AllHold(l, meta, plane, []) && HasRoom(l, [])
  {
    hide StreamHolds;
    forall k: nat | k < |l.capacities|
      ensures StreamHolds(l, meta, plane, k, EventsOf([], k))
    {
      EmptyStream(l, meta, plane, k);
    }
  }

  /** The first `n` pushes found room. */
  ghost predicate RoomSoFar(l: Layout, pushes: seq<Push>, n: nat)
    requires n <= |pushes|
  {
    HasRoom(l, pushes[..n])
  }

  /** One more push finds room exactly if its ring is not full; one that does not find room never will. */
  lemma RoomNext(l: Layout, pushes: seq<Push>, n: nat)
    requires n < |pushes| && pushes[n].stream < |l.capacities| && RoomSoFar(l, pushes, n)
    ensures |EventsOf(pushes[..n], pushes[n].stream)| < l.capacities[pushes[n].stream] <==> RoomSoFar(l, pushes, n + 1)
    ensures |EventsOf(pushes[..n], pushes[n].stream)| >= l.capacities[pushes[n].stream] ==> !HasRoom(l, pushes)
  {
    hide EventsOf;
    forall k: nat
      ensures EventsOf(pushes[..n + 1], k) == EventsOf(pushes[..n], k) + if pushes[n].stream == k then [pushes[n].event] else []
    {
      EventsNext(pushes, n, k);
    }
    EventsGrow(pushes, n + 1, pushes[n].stream);
  }

  lemma ClassRanges(l: Layout)
    requires ValidLayout(l)
    ensures forall k | 0 <= k < l.serviceBase :: ClassOf(l, k) == Channel
    ensures forall k | l.serviceBase <= k < l.generatorBase :: ClassOf(l, k) == Service
    ensures forall k | l.generatorBase <= k < |l.capacities| :: ClassOf(l, k) == Generator
  {
  }

  lemma PartReads(l: Layout, pushes: seq<Push>, homes: seq<Home>, a: seq<seq<Record>>, b: seq<seq<Record>>, c: seq<seq<Record>>,
                  k: nat)
    requires k < |a| + |b| + |c| && ReadsBack(l, pushes, homes, 0, a)
    requires ReadsBack(l, pushes, homes, |a|, b) && ReadsBack(l, pushes, homes, |a| + |b|, c)
    ensures StreamReads(l, pushes, homes, k, (a + b + c)[k])
  {
    hide StreamReads;
    if k < |a| {
      assert StreamReads(l, pushes, homes, 0 + k, a[k]);
    } else if k < |a| + |b| {
      assert StreamReads(l, pushes, homes, |a| + (k - |a|), b[k - |a|]);
    } else {
      assert StreamReads(l, pushes, homes, |a| + |b| + (k - |a| - |b|), c[k - |a| - |b|]);
    }
  }

  lemma EachAsItWas(l: Layout, pushes: seq<Push>, homes: seq<Home>, lists: seq<seq<Record>>)
    requires |lists| == |homes| && forall k | 0 <= k < |lists| :: StreamReads(l, pushes, homes, k, lists[k])
    ensures forall k | 0 <= k < |lists| ::
              && |lists[k]| == |EventsOf(pushes, k)|
              && forall i | 0 <= i < |lists[k]| ::
                   var event := EventsOf(pushes, k)[i];
                   lists[k][i] == event <==>
                   Restorable(event, ClassOf(l, k), homes[k].node, homes[k].flow, homes[k].service)
  {
    hide EventsOf, Encode, Decode, Restorable;
    forall k, i | 0 <= k < |lists| && 0 <= i < |EventsOf(pushes, k)|
      ensures var event := EventsOf(pushes, k)[i];
              ReadBack(event, ClassOf(l, k), homes[k]) == event <==>
              Restorable(event, ClassOf(l, k), homes[k].node, homes[k].flow, homes[k].service)
    {
      RecordComesBack(EventsOf(pushes, k)[i], ClassOf(l, k), homes[k].node, homes[k].flow, homes[k].service);
    }
    forall k | 0 <= k < |lists|
      ensures StreamReads(l, pushes, homes, k, lists[k])
    {
    }
  }
}
