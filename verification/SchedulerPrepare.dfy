/** Laying the schedulers of all nodes out in the plane. */
module SchedulerPrepare {
  import opened Events
  import opened Planes
  import opened Words
  import opened Rationals
  import opened SchedulerPlane
  import EcnRamp

  /** What validated images give: even lists, true fractions, and a queue that fits its ring. */
  ghost predicate Proper(q: Queue, ring: Ring) {
    Lists(q.scheduler) && FitsRing(q, ring) && (q.scheduler.Wfq? ==> TrueFractions(q.scheduler))
  }

  ghost predicate TrueFractions(s: Scheduler)
    requires s.Wfq?
  {
    && s.virtualTime.denominator > 0
    && (forall c | 0 <= c < |s.finish| :: s.finish[c].denominator > 0)
    && (forall x | x in s.tags :: s.tags[x].denominator > 0)
  }

  /** The state of a node fits the plane: its rationals, its tags and the span of its ramp. */
  predicate Writable(q: Queue) {
    Even(q.scheduler) && Tagged(q) && (q.ramp.Some? ==> EcnRamp.Span(q.ramp.value).Some?)
  }

  lemma HasAtKept(words: seq<U64>, after: seq<U64>, from: nat, part: seq<nat>)
    requires HasAt(words, from, part) && |after| >= |words|
    requires forall x | from <= x < from + |part| :: after[x] == words[x]
    ensures HasAt(after, from, part)
  {
    assert after[from..from + |part|] == words[from..from + |part|];
  }

  /** The word lies outside block `k`. */
  predicate Outside(x: int, k: nat) { !(k * NODE_WORDS <= x < (k + 1) * NODE_WORDS) }

  /** All words but those of block `k` are kept. */
  ghost predicate KeptButBlock(words: seq<U64>, after: seq<U64>, k: nat) {
    |after| >= |words| && forall x | 0 <= x < |words| && Outside(x, k) :: after[x] == words[x]
  }

  lemma BlocksApart(j: nat, k: nat, x: int)
    requires j != k && j * NODE_WORDS <= x < (j + 1) * NODE_WORDS
    ensures Outside(x, k)
  {
    if j < k {
      OneMore(j, k, NODE_WORDS);
    } else {
      OneMore(k, j, NODE_WORDS);
    }
  }

  lemma BlockKept(words: seq<U64>, after: seq<U64>, j: nat, k: nat, part: seq<nat>)
    requires HasAt(words, j * NODE_WORDS, part) && |part| == NODE_WORDS && j != k && KeptButBlock(words, after, k)
    ensures HasAt(after, j * NODE_WORDS, part)
  {
    hide Outside;
    forall x | j * NODE_WORDS <= x < j * NODE_WORDS + |part|
      ensures after[x] == words[x]
    {
      BlocksApart(j, k, x);
    }
    HasAtKept(words, after, j * NODE_WORDS, part);
  }

  /** Records behind the blocks are kept. */
  lemma RecordKept(words: seq<U64>, after: seq<U64>, n: nat, k: nat, from: nat, part: seq<nat>)
    requires HasAt(words, from, part) && k < n && n * NODE_WORDS <= from && KeptButBlock(words, after, k)
    ensures HasAt(after, from, part)
  {
    OneMore(k, n, NODE_WORDS);
    HasAtKept(words, after, from, part);
  }

  /** Writing another node keeps a node. */
  lemma NodeKept(words: seq<U64>, after: seq<U64>, n: nat, j: U64, k: nat, q: Queue, ring: Ring, seed: U64, start: nat)
    requires Writable(q) && NodeAt(words, j, q, ring, seed, OffsetsFrom(q, start)) && j != k < n
    requires n * NODE_WORDS <= start && KeptButBlock(words, after, k)
    ensures NodeAt(after, j, q, ring, seed, OffsetsFrom(q, start))
  {
    hide KeptButBlock, Block, HasAt, RampRecord, ClassRecords, WriteRational, Slot, Fits;
    var at := OffsetsFrom(q, start);
    BlockKept(words, after, j, k, Block(Some(q), at));
    if q.ramp.Some? {
      RecordKept(words, after, n, k, at.ramp, RampRecord(q.ramp.value, seed, j).value);
    }
    RecordKept(words, after, n, k, at.classes, ClassRecords(q.scheduler, Classes(q.scheduler)));
    if q.scheduler.Wfq? {
      var tags := q.scheduler.tags;
      forall i: nat | i < |q.packets|
        ensures HasAt(after, at.tags + Slot(ring, i) * RATIONAL_WORDS, WriteRational(tags[q.packets[i]]))
      {
        RecordKept(words, after, n, k, at.tags + Slot(ring, i) * RATIONAL_WORDS, WriteRational(tags[q.packets[i]]));
      }
    }
  }

  /** The class records, unless a finish time does not fit. */
  method WriteClasses(s: Scheduler) returns (r: Option<seq<U64>>)
    requires Lists(s)
    ensures r.Some? <==> s.Wfq? ==> forall c | 0 <= c < |s.finish| :: Fits(s.finish[c])
    ensures r.Some? ==> r.value == ClassRecords(s, Classes(s))
  {
    hide ClassRecord, Fits;
    var words: seq<U64> := [];
    for c: nat := 0 to Classes(s)
      invariant words == ClassRecords(s, c)
      invariant s.Wfq? ==> forall d | 0 <= d < c :: Fits(s.finish[d])
    {
      if s.Wfq? && !Fits(s.finish[c]) {
        return None;
      }
      words := words + ClassRecord(s, c);
    }
    return Some(words);
  }

  /** The records of a node, in the order they are appended. */
  method WriteRecords(node: U64, q: Queue, ring: Ring, seed: U64) returns (r: Option<(seq<U64>, seq<U64>, seq<U64>)>)
    requires Proper(q, ring)
    ensures r.Some? <==> Writable(q)
    ensures r.Some? ==>
              var (ramp, classes, tags) := r.value;
              && |ramp| == (if q.ramp.Some? then RAMP_WORDS else 0)
              && |classes| + |tags| == TailWords(q, ring) - |ramp|
              && (if q.ramp.Some? then RampRecord(q.ramp.value, seed, node) == Some(ramp) else ramp == [])
              && classes == ClassRecords(q.scheduler, Classes(q.scheduler))
              && (q.scheduler.Wfq? ==> TagsAt(tags, 0, q.packets, q.scheduler.tags, ring, |q.packets|))
  {
    hide WriteRational, TagsAt, Fits, ClassRecords, Slot;
    var ramp: seq<U64> := [];
    if q.ramp.Some? {
      var record := RampRecord(q.ramp.value, seed, node);
      if record.None? {
        return None;
      }
      ramp := record.value;
    }
    if q.scheduler.Wfq? && !Fits(q.scheduler.virtualTime) {
      return None;
    }
    var classes := WriteClasses(q.scheduler);
    if classes.None? {
      return None;
    }
    var tags: seq<U64> := [];
    if q.scheduler.Wfq? {
      var written := WriteTags(q.packets, q.scheduler.tags, ring);
      if written.None? || (q.inService.Some? && !HasTag(q.scheduler.tags, q.inService.value)) {
        return None;
      }
      tags := written.value;
    }
    return Some((ramp, classes.value, tags));
  }

  /** Writes the block of a node and appends its records. It fails exactly if they do not fit. */
  method AppendNode(words: seq<U64>, node: U64, q: Queue, ring: Ring, seed: U64) returns (r: Option<seq<U64>>)
    requires Proper(q, ring) && (node + 1) * NODE_WORDS <= |words|
    ensures r.Some? <==> Writable(q) && |words| + TailWords(q, ring) <= U64_MAX
    ensures r.Some? ==>
              && |r.value| == |words| + TailWords(q, ring)
              && KeptButBlock(words, r.value, node)
              && NodeAt(r.value, node, q, ring, seed, OffsetsFrom(q, |words|))
  {
    hide Writable, Even, Tagged, WriteRational, TagsAt, ClassRecords, Block, RampRecord, Slot;
    var records := WriteRecords(node, q, ring, seed);
    if records.None? || |words| + TailWords(q, ring) > U64_MAX {
      return None;
    }
    var (ramp, classes, tags) := records.value;
    var at := OffsetsFrom(q, |words|);
    BlockWords(q, ring, at, |words|);
    var patched := Patched(words, node * NODE_WORDS, Block(Some(q), at));
    var all := patched + ramp + classes + tags;
    r := Some(all);
    assert KeptButBlock(words, all, node);
    NodeStands(all, patched, node, q, ring, seed, at, ramp, classes, tags);
  }

  /** The block's values are words. */
  lemma BlockWords(q: Queue, ring: Ring, at: Offsets, start: nat)
    requires at == OffsetsFrom(q, start) && start + TailWords(q, ring) <= U64_MAX
    ensures forall i | 0 <= i < NODE_WORDS :: Block(Some(q), at)[i] <= U64_MAX
  {
    hide WriteRational;
  }

  lemma NodeStands(all: seq<U64>, patched: seq<U64>, node: U64, q: Queue, ring: Ring, seed: U64, at: Offsets, ramp: seq<U64>,
                   classes: seq<U64>, tags: seq<U64>)
    requires Proper(q, ring) && Writable(q) && at == OffsetsFrom(q, |patched|)
    requires HasAt(patched, node * NODE_WORDS, Block(Some(q), at)) && all == patched + ramp + classes + tags
    requires |ramp| == (if q.ramp.Some? then RAMP_WORDS else 0)
    requires q.ramp.Some? ==> RampRecord(q.ramp.value, seed, node) == Some(ramp)
    requires classes == ClassRecords(q.scheduler, Classes(q.scheduler))
    requires q.scheduler.Wfq? ==> TagsAt(tags, 0, q.packets, q.scheduler.tags, ring, |q.packets|)
    ensures NodeAt(all, node, q, ring, seed, at)
  {
    hide Writable, Even, WriteRational, ClassRecords, Block, RampRecord, Slot, Fits, Proper;
    HasAtKept(patched, all, node * NODE_WORDS, Block(Some(q), at));
    assert all[|patched|..|patched| + |ramp|] == ramp;
    assert all[at.classes..at.classes + |classes|] == classes;
    if q.scheduler.Wfq? {
      assert all[at.tags..] == tags;
      forall i: nat | i < |q.packets|
        ensures HasAt(all, at.tags + Slot(ring, i) * RATIONAL_WORDS, WriteRational(q.scheduler.tags[q.packets[i]]))
      {
        Shifted(all, tags, at.tags, Slot(ring, i) * RATIONAL_WORDS, WriteRational(q.scheduler.tags[q.packets[i]]));
      }
    }
  }

  lemma Shifted(all: seq<U64>, tail: seq<U64>, from: nat, at: nat, part: seq<U64>)
    requires from <= |all| && all[from..] == tail && HasAt(tail, at, part)
    ensures HasAt(all, from + at, part)
  {
    assert all[from + at..from + at + |part|] == tail[at..at + |part|];
  }

  function NodeTail(node: Option<Queue>, ring: Ring): nat { if node.Some? then TailWords(node.value, ring) else 0 }

  /** The words behind the blocks that the first `n` nodes take. */
  function Tails(nodes: seq<Option<Queue>>, rings: seq<Ring>, n: nat): nat
    requires n <= |nodes| == |rings|
  {
    if n == 0 then 0 else Tails(nodes, rings, n - 1) + NodeTail(nodes[n - 1], rings[n - 1])
  }

  lemma {:induction false} TailsGrow(nodes: seq<Option<Queue>>, rings: seq<Ring>, k: nat, n: nat)
    requires k <= n <= |nodes| == |rings|
    ensures Tails(nodes, rings, k) <= Tails(nodes, rings, n)
    decreases n - k
  {
    if k < n {
      TailsGrow(nodes, rings, k, n - 1);
    }
  }

  /** The words of the plane. */
  function PlaneWords(nodes: seq<Option<Queue>>, rings: seq<Ring>): nat
    requires |nodes| == |rings|
  {
    |nodes| * NODE_WORDS + Tails(nodes, rings, |nodes|)
  }

  /** Node `j` stands in the plane, its records behind those of the nodes before it. */
  ghost predicate Stands(words: seq<U64>, nodes: seq<Option<Queue>>, rings: seq<Ring>, seed: U64, j: U64)
    requires j < |nodes| == |rings|
  {
    match nodes[j]
    case None => HasAt(words, j * NODE_WORDS, Block(None, Offsets(0, 0, 0)))
    case Some(q) =>
      && Writable(q)
      && NodeAt(words, j, q, rings[j], seed, OffsetsFrom(q, |nodes| * NODE_WORDS + Tails(nodes, rings, j)))
  }

  ghost predicate AllStand(words: seq<U64>, nodes: seq<Option<Queue>>, rings: seq<Ring>, seed: U64, n: nat)
    requires n <= |nodes| == |rings| <= U64_MAX
  {
    forall j: U64 | j < n :: Stands(words, nodes, rings, seed, j)
  }

  lemma StandsKept(words: seq<U64>, after: seq<U64>, nodes: seq<Option<Queue>>, rings: seq<Ring>, seed: U64, j: U64, k: nat)
    requires j < k < |nodes| == |rings| && Stands(words, nodes, rings, seed, j) && KeptButBlock(words, after, k)
    ensures Stands(after, nodes, rings, seed, j)
  {
    hide KeptButBlock, NodeAt, Writable, Block;
    match nodes[j]
    case None => BlockKept(words, after, j, k, Block(None, Offsets(0, 0, 0)));
    case Some(q) =>
      NodeKept(words, after, |nodes|, j, k, q, rings[j], seed, |nodes| * NODE_WORDS + Tails(nodes, rings, j));
  }

  ghost predicate AllWritable(nodes: seq<Option<Queue>>, n: nat)
    requires n <= |nodes|
  {
    forall j | 0 <= j < n && nodes[j].Some? :: Writable(nodes[j].value)
  }

  /** Lays out the schedulers of all nodes. It fails exactly if some state does not fit or the plane is
      too long, takes exactly the words foreseen, and every node then stands in it. */
  method PrepareSchedulers(nodes: seq<Option<Queue>>, rings: seq<Ring>, seed: U64) returns (r: Option<seq<U64>>)
    requires |nodes| == |rings| && |nodes| * NODE_WORDS <= U64_MAX
    requires forall j | 0 <= j < |nodes| && nodes[j].Some? :: Proper(nodes[j].value, rings[j])
    ensures r.Some? <==> AllWritable(nodes, |nodes|) && PlaneWords(nodes, rings) <= U64_MAX
    ensures r.Some? ==> |r.value| == PlaneWords(nodes, rings) && AllStand(r.value, nodes, rings, seed, |nodes|)
  {
    hide Writable, Proper, NodeAt, Block, KeptButBlock, TailWords, Stands;
    var n := |nodes|;
    var words: seq<U64> := seq(n * NODE_WORDS, _ => 0);
    for k: nat := 0 to n
      invariant |words| == n * NODE_WORDS + Tails(nodes, rings, k) <= U64_MAX
      invariant AllWritable(nodes, k) && AllStand(words, nodes, rings, seed, k)
    {
      OneMore(k, n, NODE_WORDS);
      var next: Option<seq<U64>>;
      match nodes[k] {
        case None => next := Some(EmptyNode(words, k));
        case Some(q) =>
          next := AppendNode(words, k, q, rings[k], seed);
          if next.None? {
            TailsGrow(nodes, rings, k + 1, n);
            return None;
          }
      }
      StandsNow(words, next.value, nodes, rings, seed, k);
      words := next.value;
    }
    return Some(words);
  }

  /** Writes the block of a node without a queue. */
  function EmptyNode(words: seq<U64>, k: nat): (r: seq<U64>)
    requires (k + 1) * NODE_WORDS <= |words|
    ensures |r| == |words| && KeptButBlock(words, r, k) && HasAt(r, k * NODE_WORDS, Block(None, Offsets(0, 0, 0)))
  {
    Patched(words, k * NODE_WORDS, Block(None, Offsets(0, 0, 0)))
  }

  lemma StandsNow(words: seq<U64>, after: seq<U64>, nodes: seq<Option<Queue>>, rings: seq<Ring>, seed: U64, k: U64)
    requires k < |nodes| == |rings| <= U64_MAX && AllStand(words, nodes, rings, seed, k) && KeptButBlock(words, after, k)
    requires |words| == |nodes| * NODE_WORDS + Tails(nodes, rings, k)
    requires match nodes[k]
             case None => HasAt(after, k * NODE_WORDS, Block(None, Offsets(0, 0, 0)))
             case Some(q) => Writable(q) && NodeAt(after, k, q, rings[k], seed, OffsetsFrom(q, |words|))
    ensures AllStand(after, nodes, rings, seed, k + 1)
  {
    hide Stands, NodeAt, KeptButBlock, Block, Writable;
    forall j: U64 | j < k + 1
      ensures Stands(after, nodes, rings, seed, j)
    {
      if j < k {
        StandsKept(words, after, nodes, rings, seed, j, k);
      } else {
        StandsLast(after, nodes, rings, seed, k, |words|);
      }
    }
  }

  lemma StandsLast(after: seq<U64>, nodes: seq<Option<Queue>>, rings: seq<Ring>, seed: U64, k: U64, start: nat)
    requires k < |nodes| == |rings| && start == |nodes| * NODE_WORDS + Tails(nodes, rings, k)
    requires match nodes[k]
             case None => HasAt(after, k * NODE_WORDS, Block(None, Offsets(0, 0, 0)))
             case Some(q) => Writable(q) && NodeAt(after, k, q, rings[k], seed, OffsetsFrom(q, start))
    ensures Stands(after, nodes, rings, seed, k)
  {
    hide NodeAt, Block, Writable;
  }

  /** Counts the words of the plane with what is appended to it, at least one; fails if they overflow. */
  method CountWords(nodes: seq<Option<Queue>>, rings: seq<Ring>, appended: nat) returns (r: Option<nat>)
    requires |nodes| == |rings|
    ensures r.Some? <==> PlaneWords(nodes, rings) + appended <= U64_MAX
    ensures r.Some? ==> r.value == if PlaneWords(nodes, rings) + appended == 0 then 1 else PlaneWords(nodes, rings) + appended
  {
    hide TailWords;
    var words := |nodes| * NODE_WORDS;
    if words > U64_MAX {
      return None;
    }
    for k := 0 to |nodes|
      invariant words == |nodes| * NODE_WORDS + Tails(nodes, rings, k) <= U64_MAX
    {
      words := words + NodeTail(nodes[k], rings[k]);
      if words > U64_MAX {
        TailsGrow(nodes, rings, k + 1, |nodes|);
        return None;
      }
    }
    if words + appended > U64_MAX {
      return None;
    }
    return Some(if words + appended == 0 then 1 else words + appended);
  }
}
