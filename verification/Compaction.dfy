/** Readback compaction: gathers the live records of every ring of an arena into one dense buffer. */
module Compaction {
  import opened Basics
  import opened Events
  import opened Words

  datatype Shape = Linear | Ring

  /** One entity's region of a plane: its first word, its ring and how many records are live. */
  datatype Entity = Entity(source: U64, capacity: U64, head: U64, count: U64)

  datatype Plan = Plan(shape: Shape, width: nat, entities: seq<Entity>, destinations: seq<nat>, total: nat)

  function AtLeastOne(n: nat): nat { if n == 0 then 1 else n }

  /** The slot of logical record `i`. */
  function Physical(shape: Shape, e: Entity, i: nat): nat {
    if shape.Linear? then i else RingSlot(e.capacity, e.head, i)
  }

  /** The first word of logical record `i`. */
  function Place(shape: Shape, width: nat, e: Entity, i: nat): nat {
    assert Physical(shape, e, i) * width >= 0;
    e.source + Physical(shape, e, i) * width
  }

  function Span(shape: Shape, e: Entity): nat {
    if shape.Linear? || e.capacity < e.count then e.count else e.capacity
  }

  /** The live records fit their ring, and the ring fits the plane. */
  predicate Lies(shape: Shape, width: nat, e: Entity, plane: nat) {
    && (shape.Ring? ==> e.count <= AtLeastOne(e.capacity) && e.head < AtLeastOne(e.capacity))
    && Span(shape, e) * width + e.source <= plane
  }

  /** Every word of every live record lies in the plane. */
  lemma RecordLies(shape: Shape, width: nat, e: Entity, plane: nat, i: nat)
    requires Lies(shape, width, e, plane) && i < e.count
    ensures Place(shape, width, e, i) + width <= plane
  {
    OneMore(Physical(shape, e, i), Span(shape, e), width);
  }

  /** An entity's live records, in logical order. */
  function LiveRecords(shape: Shape, width: nat, e: Entity, plane: seq<U64>): (r: seq<seq<U64>>)
    requires Lies(shape, width, e, |plane|)
    ensures |r| == e.count
  {
    seq(e.count, i requires 0 <= i < e.count =>
      RecordLies(shape, width, e, |plane|, i);
      plane[Place(shape, width, e, i)..Place(shape, width, e, i) + width])
  }

  /** Live records of the first `k` entities. */
  function CountBefore(entities: seq<Entity>, k: nat): nat
    requires k <= |entities|
  {
    if k == 0 then 0 else CountBefore(entities, k - 1) + entities[k - 1].count
  }

  predicate AllLie(shape: Shape, width: nat, entities: seq<Entity>, plane: nat) {
    forall k | 0 <= k < |entities| :: Lies(shape, width, entities[k], plane)
  }

  ghost predicate ValidPlan(p: Plan, plane: nat) {
    && p.width > 0 && AllLie(p.shape, p.width, p.entities, plane)
    && |p.destinations| == |p.entities|
    && (forall k | 0 <= k < |p.entities| :: p.destinations[k] == CountBefore(p.entities, k))
    && p.total == CountBefore(p.entities, |p.entities|)
  }

  lemma {:induction false} CountGrows(entities: seq<Entity>, j: nat, k: nat)
    requires j <= k <= |entities|
    ensures CountBefore(entities, j) <= CountBefore(entities, k)
    decreases k
  {
    if j < k {
      CountGrows(entities, j, k - 1);
    }
  }

  /** Checks one entity against its ring and the plane, in 64-bit arithmetic. */
  method CheckEntity(shape: Shape, width: U64, e: Entity, plane: U64) returns (ok: bool)
    ensures ok == Lies(shape, width, e, plane)
  {
    if shape.Ring? && e.count > AtLeastOne(e.capacity) {
      return false;
    }
    if shape.Ring? && e.head >= AtLeastOne(e.capacity) {
      return false;
    }
    var words := Span(shape, e) * width;
    ok := words <= U64_MAX && words + e.source <= U64_MAX && words + e.source <= plane;
  }

  /** Plans the gather. Refuses exactly the metadata whose live regions do not fit the plane, or whose
      records do not fit the address space. */
  method NewPlan(shape: Shape, width: U64, entities: seq<Entity>, plane: U64) returns (plan: Option<Plan>)
    ensures plan.Some? <==>
            && width > 0 && AllLie(shape, width, entities, plane)
            && CountBefore(entities, |entities|) * width <= U64_MAX
    ensures plan.Some? ==>
              && ValidPlan(plan.value, plane)
              && plan.value.shape == shape && plan.value.width == width && plan.value.entities == entities
  {
    hide Lies, CountBefore;
    if width == 0 {
      return None;
    }
    var destinations: seq<nat> := [];
    var total: nat := 0;
    CountNone(entities);
    for k := 0 to |entities|
      invariant |destinations| == k && total == CountBefore(entities, k) && total <= U64_MAX
      invariant forall j | 0 <= j < k :: Lies(shape, width, entities[j], plane)
      invariant forall j | 0 <= j < k :: destinations[j] == CountBefore(entities, j)
    {
      var ok := CheckEntity(shape, width, entities[k], plane);
      if !ok {
        return None;
      }
      destinations := destinations + [total];
      CountOneMore(entities, k);
      if total + entities[k].count > U64_MAX {
        TotalTooLarge(entities, k + 1, width);
        return None;
      }
      total := total + entities[k].count;
    }
    if total * width > U64_MAX {
      return None;
    }
    plan := Some(Plan(shape, width, entities, destinations, total));
  }

  lemma CountNone(entities: seq<Entity>)
    ensures CountBefore(entities, 0) == 0
  {
  }

  lemma CountOneMore(entities: seq<Entity>, k: nat)
    requires k < |entities|
    ensures CountBefore(entities, k + 1) == CountBefore(entities, k) + entities[k].count
  {
  }

  lemma TotalTooLarge(entities: seq<Entity>, k: nat, width: nat)
    requires k <= |entities| && width > 0 && CountBefore(entities, k) > U64_MAX
    ensures CountBefore(entities, |entities|) * width > U64_MAX
  {
    CountGrows(entities, k, |entities|);
    var total := CountBefore(entities, |entities|);
    Scaled(1, width, total);
    assert width * total == total * width;
  }

  /** Record `i` of entity `k` stands at its place in the gathered buffer. */
  ghost predicate RecordGathered(p: Plan, plane: seq<U64>, out: seq<U64>, k: nat, i: nat)
    requires ValidPlan(p, |plane|) && k < |p.entities| && i < p.entities[k].count
  {
    var to := (p.destinations[k] + i) * p.width;
    && 0 <= to <= to + p.width <= |out|
    && out[to..to + p.width] == LiveRecords(p.shape, p.width, p.entities[k], plane)[i]
  }

  /** The buffer holds the live records of entity `k`. */
  ghost predicate Gathered(p: Plan, plane: seq<U64>, out: seq<U64>, k: nat)
    requires ValidPlan(p, |plane|) && k < |p.entities|
  {
    forall i | 0 <= i < p.entities[k].count :: RecordGathered(p, plane, out, k, i)
  }

  /** The record of the buffer that record `i` of entity `k` becomes. */
  lemma WithinTotal(p: Plan, plane: nat, k: nat, i: nat)
    requires ValidPlan(p, plane) && k < |p.entities| && i < p.entities[k].count
    ensures p.destinations[k] + i < CountBefore(p.entities, k + 1) <= p.total
    ensures (p.destinations[k] + i) * p.width + p.width <= p.total * p.width
  {
    CountGrows(p.entities, k + 1, |p.entities|);
    OneMore(p.destinations[k] + i, p.total, p.width);
  }

  /** Different records go to different places. */
  lemma PlacesDiffer(p: Plan, plane: nat, k: nat, i: nat, k': nat, i': nat)
    requires ValidPlan(p, plane) && k < |p.entities| && i < p.entities[k].count
    requires k' < |p.entities| && i' < p.entities[k'].count && (k != k' || i != i')
    ensures var a, b := p.destinations[k] + i, p.destinations[k'] + i';
            a != b && (a < b ==> a * p.width + p.width <= b * p.width) && (b < a ==> b * p.width + p.width <= a * p.width)
  {
    var a, b := p.destinations[k] + i, p.destinations[k'] + i';
    WithinTotal(p, plane, k, i);
    WithinTotal(p, plane, k', i');
    if k < k' {
      CountGrows(p.entities, k + 1, k');
    } else if k' < k {
      CountGrows(p.entities, k' + 1, k);
    }
    if a < b {
      OneMore(a, b, p.width);
    } else if b < a {
      OneMore(b, a, p.width);
    }
  }

  /** Two buffers agree outside the words from `from` to `to`. */
  ghost predicate AgreeOutside(a: seq<U64>, b: seq<U64>, from: int, to: int) {
    |a| == |b| && forall x | 0 <= x < |a| && !(from <= x < to) :: a[x] == b[x]
  }

  lemma SliceAgrees(a: seq<U64>, b: seq<U64>, from: int, to: int, lo: int, hi: int)
    requires AgreeOutside(a, b, from, to) && 0 <= lo <= hi <= |a| && (hi <= from || to <= lo)
    ensures a[lo..hi] == b[lo..hi]
  {
  }

  /** Writing one record leaves every other record of the buffer alone. */
  lemma OthersKept(p: Plan, plane: seq<U64>, before: seq<U64>, after: seq<U64>, k: nat, i: nat, k': nat, i': nat)
    requires ValidPlan(p, |plane|) && k < |p.entities| && i < p.entities[k].count
    requires k' < |p.entities| && i' < p.entities[k'].count && (k != k' || i != i')
    requires AgreeOutside(before, after, (p.destinations[k] + i) * p.width, (p.destinations[k] + i) * p.width + p.width)
    requires RecordGathered(p, plane, before, k', i')
    ensures RecordGathered(p, plane, after, k', i')
  {
    hide LiveRecords;
    PlacesDiffer(p, |plane|, k, i, k', i');
    var to := (p.destinations[k'] + i') * p.width;
    SliceAgrees(before, after, (p.destinations[k] + i) * p.width, (p.destinations[k] + i) * p.width + p.width, to, to + p.width);
  }

  /** Copies a slice of words. */
  method CopyWords(source: seq<U64>, from: nat, out: array<U64>, to: nat, width: nat)
    requires from + width <= |source| && to + width <= out.Length
    modifies out
    ensures out[..][to..to + width] == source[from..from + width]
    ensures AgreeOutside(old(out[..]), out[..], to, to + width)
  {
    for w := 0 to width
      invariant forall x | to <= x < to + w :: out[x] == source[from + (x - to)]
      invariant forall x | 0 <= x < out.Length && !(to <= x < to + w) :: out[x] == old(out[x])
    {
      out[to + w] := source[from + w];
    }
  }

  lemma LiveAt(shape: Shape, width: nat, e: Entity, plane: seq<U64>, i: nat)
    requires Lies(shape, width, e, |plane|) && i < e.count
    ensures var from := Place(shape, width, e, i);
            from + width <= |plane| && LiveRecords(shape, width, e, plane)[i] == plane[from..from + width]
  {
    RecordLies(shape, width, e, |plane|, i);
  }

  /** Copies one live record into the buffer. */
  method CopyRecord(p: Plan, plane: seq<U64>, out: array<U64>, k: nat, i: nat)
    requires ValidPlan(p, |plane|) && out.Length == p.total * p.width && k < |p.entities| && i < p.entities[k].count
    modifies out
    ensures RecordGathered(p, plane, out[..], k, i)
    ensures AgreeOutside(old(out[..]), out[..], (p.destinations[k] + i) * p.width, (p.destinations[k] + i) * p.width + p.width)
  {
    hide AgreeOutside, CountBefore, LiveRecords, Place, Lies;
    LiveAt(p.shape, p.width, p.entities[k], plane, i);
    WithinTotal(p, |plane|, k, i);
    var to := (p.destinations[k] + i) * p.width;
    assert to >= 0;
    CopyWords(plane, Place(p.shape, p.width, p.entities[k], i), out, to, p.width);
  }

  /** One gather thread: copies the live records of entity `k`, and touches no other entity's. */
  method GatherEntity(p: Plan, plane: seq<U64>, out: array<U64>, k: nat)
    requires ValidPlan(p, |plane|) && out.Length == p.total * p.width && k < |p.entities|
    modifies out
    ensures Gathered(p, plane, out[..], k)
    ensures forall j | 0 <= j < |p.entities| && j != k && old(Gathered(p, plane, out[..], j)) :: Gathered(p, plane, out[..], j)
  {
    hide ValidPlan, RecordGathered, AgreeOutside;
    ghost var start := out[..];
    for i := 0 to p.entities[k].count
      invariant forall x | 0 <= x < i :: RecordGathered(p, plane, out[..], k, x)
      invariant forall j | 0 <= j < |p.entities| && j != k && Gathered(p, plane, start, j) :: Gathered(p, plane, out[..], j)
    {
      ghost var before := out[..];
      CopyRecord(p, plane, out, k, i);
      forall x | 0 <= x < i
        ensures RecordGathered(p, plane, out[..], k, x)
      {
        OthersKept(p, plane, before, out[..], k, i, k, x);
      }
      forall j | 0 <= j < |p.entities| && j != k && Gathered(p, plane, start, j)
        ensures Gathered(p, plane, out[..], j)
      {
        forall x | 0 <= x < p.entities[j].count
          ensures RecordGathered(p, plane, out[..], j, x)
        {
          assert RecordGathered(p, plane, before, j, x);
          OthersKept(p, plane, before, out[..], k, i, j, x);
        }
      }
    }
  }

  /** Runs the gather threads in any order: the result is the same dense buffer. */
  method Gather(p: Plan, plane: seq<U64>, order: seq<nat>) returns (out: array<U64>)
    requires ValidPlan(p, |plane|) && forall k | k in order :: k < |p.entities|
    ensures fresh(out) && out.Length == p.total * p.width
    ensures forall k | 0 <= k < |p.entities| && k in order :: Gathered(p, plane, out[..], k)
  {
    hide ValidPlan, Gathered;
    assert p.total * p.width >= 0;
    out := new U64[p.total * p.width](_ => 0);
    for t := 0 to |order|
      invariant forall k | 0 <= k < |p.entities| && k in order[..t] :: Gathered(p, plane, out[..], k)
    {
      assert order[t] in order;
      GatherEntity(p, plane, out, order[t]);
      assert order[..t + 1] == order[..t] + [order[t]];
    }
    assert order[..|order|] == order;
  }

  /** Which record of which entity a record of the buffer is. */
  lemma {:induction false} TileOf(p: Plan, plane: nat, record: nat, n: nat) returns (k: nat, i: nat)
    requires ValidPlan(p, plane) && n <= |p.entities| && record < CountBefore(p.entities, n)
    ensures k < n && i < p.entities[k].count && record == p.destinations[k] + i
  {
    if record < CountBefore(p.entities, n - 1) {
      k, i := TileOf(p, plane, record, n - 1);
    } else {
      k, i := n - 1, record - CountBefore(p.entities, n - 1);
    }
  }

  lemma SameWord(p: Plan, plane: seq<U64>, a: seq<U64>, b: seq<U64>, k: nat, i: nat, word: nat)
    requires ValidPlan(p, |plane|) && k < |p.entities| && i < p.entities[k].count && word < p.width
    requires RecordGathered(p, plane, a, k, i) && RecordGathered(p, plane, b, k, i)
    ensures var x := (p.destinations[k] + i) * p.width + word;
            0 <= x < |a| && x < |b| && a[x] == b[x]
  {
    hide LiveRecords, CountBefore, Lies;
    var to := (p.destinations[k] + i) * p.width;
    assert a[to + word] == a[to..to + p.width][word] && b[to + word] == b[to..to + p.width][word];
  }

  /** The blocks tile the buffer, so whatever gathers all entities gives one and the same buffer. */
  lemma GatherIsUnique(p: Plan, plane: seq<U64>, a: seq<U64>, b: seq<U64>)
    requires ValidPlan(p, |plane|) && |a| == |b| == p.total * p.width
    requires forall k | 0 <= k < |p.entities| :: Gathered(p, plane, a, k) && Gathered(p, plane, b, k)
    ensures a == b
  {
    hide LiveRecords, CountBefore, Lies, RecordGathered;
    forall x | 0 <= x < |a|
      ensures a[x] == b[x]
    {
      var record, word := x / p.width, x % p.width;
      Divided(x, p.width, p.total);
      var k, i := TileOf(p, |plane|, record, |p.entities|);
      assert Gathered(p, plane, a, k) && Gathered(p, plane, b, k);
      SameWord(p, plane, a, b, k, i, word);
    }
  }

  lemma Divided(x: nat, width: nat, total: nat)
    requires width > 0 && x < total * width
    ensures x / width < total && x == x / width * width + x % width
  {
    if x / width >= total {
      Scaled(total, x / width, width);
    }
  }

  /** The ring without its first record. */
  function Popped(e: Entity): Entity
    requires e.head < e.capacity && e.count > 0
  {
    RingTurns(e.capacity, e.head, 0);
    e.(head := RingSlot(e.capacity, e.head, 1), count := e.count - 1)
  }

  /** The first live record lies at the head; moving the head on drops it and keeps the others in order. */
  lemma PopDropsFirst(width: nat, e: Entity, plane: seq<U64>)
    requires Lies(Ring, width, e, |plane|) && e.head < e.capacity && 0 < e.count <= e.capacity
    ensures Place(Ring, width, e, 0) == e.source + e.head * width
    ensures Lies(Ring, width, Popped(e), |plane|)
    ensures LiveRecords(Ring, width, Popped(e), plane) == LiveRecords(Ring, width, e, plane)[1..]
  {
    hide RingSlot;
    RingTurns(e.capacity, e.head, 0);
    var live, rest := LiveRecords(Ring, width, e, plane), LiveRecords(Ring, width, Popped(e), plane);
    forall i | 0 <= i < |rest|
      ensures rest[i] == live[i + 1]
    {
      NextHead(e.capacity, e.head, i);
      RecordLies(Ring, width, e, |plane|, i + 1);
      RecordLies(Ring, width, Popped(e), |plane|, i);
    }
  }
}
