/** Packet schedulers of all switches in one flat plane: a fixed block for each node, then the records
that blocks point to. */
module SchedulerPlane {
  import opened Basics
  import opened Events
  import opened Planes
  import opened Rationals
  import EcnRamp

  const NODE_WORDS: nat := 29
  const CLASS_WORDS: nat := 12
  const RAMP_WORDS: nat := 4

  datatype Scheduler =
    | Fifo
    | StaticPriority(priorities: seq<U64>)
    | Wfq(weights: seq<U64>, active: seq<U64>, finish: seq<Rational>, virtualTime: Rational, lastUpdated: U64,
          tags: map<U64, Rational>)
    | Drr(quanta: seq<U64>, deficits: seq<U64>, currentClass: U64)
    | Wrr(shares: seq<U64>, sent: seq<U64>, currentClass: U64)

  /** A switch queue: the waiting packets, the one in service, the scheduler and the marking ramp. */
  datatype Queue = Queue(packets: seq<U64>, inService: Option<U64>, scheduler: Scheduler, ramp: Option<EcnRamp.Policy>)

  /** The packet ring that finish tags lie beside. */
  datatype Ring = Ring(capacity: U64, head: U64)

  function Code(s: Scheduler): U64 {
    match s
    case Fifo => 0
    case StaticPriority(_) => 1
    case Wfq(_, _, _, _, _, _) => 2
    case Drr(_, _, _) => 3
    case Wrr(_, _, _) => 4
  }

  function Classes(s: Scheduler): nat {
    match s
    case Fifo => 0
    case StaticPriority(priorities) => |priorities|
    case Wfq(weights, _, _, _, _, _) => |weights|
    case Drr(quanta, _, _) => |quanta|
    case Wrr(shares, _, _) => |shares|
  }

  /** The lists of a scheduler have one entry for each class. */
  predicate Lists(s: Scheduler) {
    match s
    case Fifo => true
    case StaticPriority(_) => true
    case Wfq(weights, active, finish, _, _, _) => |active| == |weights| == |finish|
    case Drr(quanta, deficits, _) => |deficits| == |quanta|
    case Wrr(shares, sent, _) => |sent| == |shares|
  }

  /** Its virtual time and its finish times fit the plane. */
  predicate Even(s: Scheduler) {
    && Lists(s)
    && (s.Wfq? ==> Fits(s.virtualTime) && forall c | 0 <= c < |s.finish| :: Fits(s.finish[c]))
  }

  /** The queue fits its ring. */
  predicate FitsRing(q: Queue, ring: Ring) {
    |q.packets| <= ring.capacity && (ring.capacity > 0 ==> ring.head < ring.capacity)
  }

  predicate HasTag(tags: map<U64, Rational>, x: U64) { x in tags && Fits(tags[x]) }

  predicate AllTagged(packets: seq<U64>, tags: map<U64, Rational>) {
    forall i | 0 <= i < |packets| :: HasTag(tags, packets[i])
  }

  /** Every waiting packet and the one in service has a finish tag that fits the plane. */
  predicate Tagged(q: Queue) {
    q.scheduler.Wfq? ==>
      AllTagged(q.packets, q.scheduler.tags) && (q.inService.Some? ==> HasTag(q.scheduler.tags, q.inService.value))
  }

  /** No other packet has one. */
  ghost predicate NoOtherTag(q: Queue) {
    q.scheduler.Wfq? ==> forall x | x in q.scheduler.tags :: x in q.packets || q.inService == Some(x)
  }

  /** The record of one class: its fixed value, its counter and, for WFQ, its finish time. */
  function ClassRecord(s: Scheduler, c: nat): (r: seq<U64>)
    requires Lists(s) && c < Classes(s)
    ensures |r| == CLASS_WORDS
  {
    match s
    case StaticPriority(priorities) => [priorities[c], 0] + WriteRational(ZERO)
    case Wfq(weights, active, finish, _, _, _) => [weights[c], active[c]] + WriteRational(finish[c])
    case Drr(quanta, deficits, _) => [quanta[c], deficits[c]] + WriteRational(ZERO)
    case Wrr(shares, sent, _) => [shares[c], sent[c]] + WriteRational(ZERO)
  }

  function ClassRecords(s: Scheduler, n: nat): (r: seq<U64>)
    requires Lists(s) && n <= Classes(s)
    ensures |r| == n * CLASS_WORDS
  {
    if n == 0 then [] else ClassRecords(s, n - 1) + ClassRecord(s, n - 1)
  }

  lemma {:induction false} ClassAt(s: Scheduler, n: nat, c: nat)
    requires Lists(s) && c < n <= Classes(s)
    ensures ClassRecords(s, n)[c * CLASS_WORDS..(c + 1) * CLASS_WORDS] == ClassRecord(s, c)
  {
    hide ClassRecord;
    if c < n - 1 {
      ClassAt(s, n - 1, c);
      assert ClassRecords(s, n)[c * CLASS_WORDS..(c + 1) * CLASS_WORDS] ==
             ClassRecords(s, n - 1)[c * CLASS_WORDS..(c + 1) * CLASS_WORDS];
    }
  }

  /** The slot of waiting packet `i`. */
  function Slot(ring: Ring, i: nat): nat { RingSlot(ring.capacity, ring.head, i) }

  lemma SlotsDiffer(ring: Ring, i: nat, j: nat)
    requires i < j < ring.capacity && ring.head < ring.capacity
    ensures Slot(ring, i) != Slot(ring, j) && Slot(ring, i) < ring.capacity && Slot(ring, j) < ring.capacity
  {
    WrapsOnce(ring.head + i, ring.capacity);
    WrapsOnce(ring.head + j, ring.capacity);
  }

  /** The tags of the first `n` waiting packets lie at their slots. */
  ghost predicate TagsAt(words: seq<U64>, from: nat, packets: seq<U64>, tags: map<U64, Rational>, ring: Ring, n: nat)
    requires n <= |packets|
  {
    forall i: nat {:trigger packets[i]} | i < n ::
      packets[i] in tags && HasAt(words, from + Slot(ring, i) * RATIONAL_WORDS, WriteRational(tags[packets[i]]))
  }

  /** Writing a tag leaves the tags at other slots alone. */
  lemma TagKept(words: seq<U64>, after: seq<U64>, slot: nat, other: nat, part: seq<U64>)
    requires |after| == |words| && slot != other && |part| == RATIONAL_WORDS
    requires forall x | 0 <= x < |words| && !(slot * RATIONAL_WORDS <= x < (slot + 1) * RATIONAL_WORDS) :: after[x] == words[x]
    requires HasAt(words, other * RATIONAL_WORDS, part)
    ensures HasAt(after, other * RATIONAL_WORDS, part)
  {
    var from := other * RATIONAL_WORDS;
    forall x | from <= x < from + RATIONAL_WORDS
      ensures after[x] == words[x]
    {
    }
    assert after[from..from + |part|] == words[from..from + |part|];
  }

  /** A finish tag for every slot of the ring: those of the waiting packets, zero elsewhere. It fails
      exactly if a waiting packet has no tag that fits. */
  method WriteTags(packets: seq<U64>, tags: map<U64, Rational>, ring: Ring) returns (r: Option<seq<U64>>)
    requires |packets| <= ring.capacity && (ring.capacity > 0 ==> ring.head < ring.capacity)
    ensures r.Some? <==> AllTagged(packets, tags)
    ensures r.Some? ==> |r.value| == ring.capacity * RATIONAL_WORDS && TagsAt(r.value, 0, packets, tags, ring, |packets|)
  {
    hide WriteRational, Fits;
    var words: seq<U64> := [];
    for slot := 0 to ring.capacity
      invariant |words| == slot * RATIONAL_WORDS
    {
      words := words + WriteRational(ZERO);
    }
    for i: nat := 0 to |packets|
      invariant forall j | 0 <= j < i :: HasTag(tags, packets[j])
      invariant |words| == ring.capacity * RATIONAL_WORDS && TagsAt(words, 0, packets, tags, ring, i)
    {
      if !HasTag(tags, packets[i]) {
        return None;
      }
      var slot := Slot(ring, i);
      var tag := WriteRational(tags[packets[i]]);
      var after := Patched(words, slot * RATIONAL_WORDS, tag);
      forall j: nat | j < i
        ensures HasAt(after, Slot(ring, j) * RATIONAL_WORDS, WriteRational(tags[packets[j]]))
      {
        SlotsDiffer(ring, j, i);
        assert HasAt(words, 0 + Slot(ring, j) * RATIONAL_WORDS, WriteRational(tags[packets[j]]));
        TagKept(words, after, slot, Slot(ring, j), WriteRational(tags[packets[j]]));
      }
      words := after;
    }
    return Some(words);
  }

  /** The parameters of a marking ramp that the device needs, with the key of its draws. */
  function RampRecord(p: EcnRamp.Policy, seed: U64, node: U64): Option<seq<U64>> {
    match EcnRamp.Span(p)
    case None => None
    case Some(span) => Some([p.kmax, p.pmaxNumerator, span, EcnRamp.QueueKey(seed, node, 0)])
  }

  /** Where a node's records lie. */
  datatype Offsets = Offsets(ramp: nat, classes: nat, tags: nat)

  function TailWords(q: Queue, ring: Ring): nat {
    (if q.ramp.Some? then RAMP_WORDS else 0) + Classes(q.scheduler) * CLASS_WORDS +
    (if q.scheduler.Wfq? then ring.capacity * RATIONAL_WORDS else 0)
  }

  function OffsetsFrom(q: Queue, start: nat): Offsets {
    var classes := start + if q.ramp.Some? then RAMP_WORDS else 0;
    Offsets(start, classes, classes + Classes(q.scheduler) * CLASS_WORDS)
  }

  function ServiceTag(q: Queue): Rational {
    if q.scheduler.Wfq? && q.inService.Some? && q.inService.value in q.scheduler.tags
    then q.scheduler.tags[q.inService.value] else ZERO
  }

  /** The fixed block of a node. */
  function Block(node: Option<Queue>, at: Offsets): (r: seq<nat>)
    ensures |r| == NODE_WORDS
  {
    match node
    case None => [0, 0, NONE, NONE, 0] + WriteRational(ZERO) + WriteRational(ZERO) + [0, 0, 0, 0]
    case Some(q) =>
      var s := q.scheduler;
      [Code(s), Classes(s), if s.Fifo? then NONE else at.classes, if s.Wfq? then at.tags else NONE,
       if s.Wfq? then s.lastUpdated else if s.Drr? || s.Wrr? then s.currentClass else 0] +
      WriteRational(if s.Wfq? then s.virtualTime else ZERO) + WriteRational(ServiceTag(q)) +
      if q.ramp.Some? then [1, at.ramp, q.ramp.value.capacity, q.ramp.value.kmin] else [0, 0, 0, 0]
  }

  /** The ramp's record stands at its offset. */
  ghost predicate RampAt(words: seq<U64>, p: EcnRamp.Policy, seed: U64, node: U64, at: nat) {
    RampRecord(p, seed, node).Some? && HasAt(words, at, RampRecord(p, seed, node).value)
  }

  /** The block and the records of a node stand in the plane. */
  ghost predicate NodeAt(words: seq<U64>, node: U64, q: Queue, ring: Ring, seed: U64, at: Offsets)
    requires Even(q.scheduler) && Tagged(q)
  {
    && HasAt(words, node * NODE_WORDS, Block(Some(q), at))
    && (q.ramp.Some? ==> RampAt(words, q.ramp.value, seed, node, at.ramp))
    && HasAt(words, at.classes, ClassRecords(q.scheduler, Classes(q.scheduler)))
    && (q.scheduler.Wfq? ==> TagsAt(words, at.tags, q.packets, q.scheduler.tags, ring, |q.packets|))
  }
}
