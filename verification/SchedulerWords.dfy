/** Where the words of a scheduler lie in the plane and what they are, number by number. */
module SchedulerWords {
  import opened Events
  import opened Planes
  import opened Rationals
  import opened SchedulerPlane
  import opened SchedulerPrepare
  import Compaction
  import EcnRamp
  import SchedulerRestore

  /** Each kind of scheduler has its code and its count of classes. */
  predicate IsKind(s: Scheduler, code: U64, classes: U64) {
    match s
    case Fifo => code == 0 && classes == 0
    case StaticPriority(priorities) => code == 1 && classes == |priorities|
    case Wfq(weights, _, _, _, _, _) => code == 2 && classes == |weights|
    case Drr(quanta, _, _) => code == 3 && classes == |quanta|
    case Wrr(shares, _, _) => code == 4 && classes == |shares|
  }

  /** The block of a node that stands: kind, class count, the offsets of what there is and none of what there is
      not, the cursor, and the ramp's offset, capacity and lower threshold. */
  lemma BlockSays(words: seq<U64>, nodes: seq<Option<Queue>>, rings: seq<Ring>, seed: U64, j: U64)
    requires j < |nodes| == |rings| && Stands(words, nodes, rings, seed, j) && nodes[j].Some?
    ensures var b, q, s, start := 29 * j, nodes[j].value, nodes[j].value.scheduler, 29 * |nodes| + Tails(nodes, rings, j);
            var classes := start + if q.ramp.Some? then 4 else 0;
            && b + 29 <= |words|
            && IsKind(s, words[b], words[b + 1])
            && words[b + 2] == (if s.Fifo? then NONE else classes)
            && words[b + 3] == (if s.Wfq? then classes + 12 * |s.weights| else NONE)
            && words[b + 4] == (if s.Wfq? then s.lastUpdated else if s.Drr? || s.Wrr? then s.currentClass else 0)
            && words[b + 5..b + 15] == WriteRational(if s.Wfq? then s.virtualTime else ZERO)
            && words[b + 15..b + 25] == WriteRational(ServiceTag(q))
            && (q.ramp.None? ==> words[b + 25] == words[b + 26] == words[b + 27] == words[b + 28] == 0)
            && (q.ramp.Some? ==> words[b + 25] == 1 && words[b + 26] == start && words[b + 27] == q.ramp.value.capacity &&
                                 words[b + 28] == q.ramp.value.kmin)
  {
    hide WriteRational, Tails, ClassRecords, RampRecord, Writable, TagsAt, RampAt;
    var q, start := nodes[j].value, 29 * |nodes| + Tails(nodes, rings, j);
    BlockIs(words, j, q, OffsetsFrom(q, start));
  }

  lemma BlockIs(words: seq<U64>, j: U64, q: Queue, at: Offsets)
    requires HasAt(words, j * NODE_WORDS, Block(Some(q), at))
    ensures var b, s := 29 * j, q.scheduler;
            && b + 29 <= |words|
            && IsKind(s, words[b], words[b + 1])
            && words[b + 2] == (if s.Fifo? then NONE else at.classes)
            && words[b + 3] == (if s.Wfq? then at.tags else NONE)
            && words[b + 4] == (if s.Wfq? then s.lastUpdated else if s.Drr? || s.Wrr? then s.currentClass else 0)
            && words[b + 5..b + 15] == WriteRational(if s.Wfq? then s.virtualTime else ZERO)
            && words[b + 15..b + 25] == WriteRational(ServiceTag(q))
            && (q.ramp.None? ==> words[b + 25] == words[b + 26] == words[b + 27] == words[b + 28] == 0)
            && (q.ramp.Some? ==> words[b + 25] == 1 && words[b + 26] == at.ramp && words[b + 27] == q.ramp.value.capacity &&
                                 words[b + 28] == q.ramp.value.kmin)
  {
    hide WriteRational, Block, ServiceTag;
    var b, block := j * NODE_WORDS, Block(Some(q), at);
    SchedulerRestore.BlockTells(words, j, q, at);
    BlockFields(q, at);
    forall i: nat | i < NODE_WORDS
      ensures words[b + i] == block[i]
    {
      PartAt(words, b, block, i, i + 1);
    }
    assert words[b + 0] == block[0];
  }

  lemma BlockFields(q: Queue, at: Offsets)
    ensures var block, s := Block(Some(q), at), q.scheduler;
            && (block[0] <= U64_MAX && block[1] <= U64_MAX ==> IsKind(s, block[0], block[1]))
            && block[2] == (if s.Fifo? then NONE else at.classes) && block[3] == (if s.Wfq? then at.tags else NONE)
            && (q.ramp.None? ==> block[26] == block[27] == block[28] == 0)
  {
    hide WriteRational, ServiceTag;
  }

  /** A node without a queue is FIFO without anything. */
  lemma EmptyBlockSays(words: seq<U64>, nodes: seq<Option<Queue>>, rings: seq<Ring>, seed: U64, j: U64)
    requires j < |nodes| == |rings| && Stands(words, nodes, rings, seed, j) && nodes[j].None?
    ensures var b := 29 * j;
            && b + 29 <= |words|
            && words[b] == words[b + 1] == words[b + 4] == words[b + 25] == 0 && words[b + 2] == words[b + 3] == NONE
  {
    hide WriteRational, Tails, NodeAt;
    var b, block := j * NODE_WORDS, Block(None, Offsets(0, 0, 0));
    forall i: nat | i < NODE_WORDS
      ensures words[b + i] == block[i]
    {
      PartAt(words, b, block, i, i + 1);
    }
    assert words[b + 0] == block[0];
  }

  /** The first two words of class `c`: what it is given, and what it has now. */
  lemma ClassSays(words: seq<U64>, nodes: seq<Option<Queue>>, rings: seq<Ring>, seed: U64, j: U64, c: nat)
    requires j < |nodes| == |rings| && Stands(words, nodes, rings, seed, j) && nodes[j].Some?
    requires c < Classes(nodes[j].value.scheduler)
    ensures var q, s := nodes[j].value, nodes[j].value.scheduler;
            var at := 29 * |nodes| + Tails(nodes, rings, j) + (if q.ramp.Some? then 4 else 0) + 12 * c;
            && at + 12 <= |words|
            && (s.StaticPriority? ==> words[at] == s.priorities[c] && words[at + 1] == 0)
            && (s.Wfq? ==> words[at] == s.weights[c] && words[at + 1] == s.active[c] &&
                           words[at + 2..at + 12] == WriteRational(s.finish[c]))
            && (s.Drr? ==> words[at] == s.quanta[c] && words[at + 1] == s.deficits[c])
            && (s.Wrr? ==> words[at] == s.shares[c] && words[at + 1] == s.sent[c])
  {
    hide WriteRational, Tails, Stands, Even, ClassRecord, ClassRecords, Classes;
    var q := nodes[j].value;
    var from := OffsetsFrom(q, 29 * |nodes| + Tails(nodes, rings, j)).classes;
    ClassesStand(words, nodes, rings, seed, j);
    SchedulerRestore.ClassTells(words, q.scheduler, from, c);
    RecordIs(words, q.scheduler, from + c * CLASS_WORDS, c);
  }

  lemma ClassesStand(words: seq<U64>, nodes: seq<Option<Queue>>, rings: seq<Ring>, seed: U64, j: U64)
    requires j < |nodes| == |rings| && Stands(words, nodes, rings, seed, j) && nodes[j].Some?
    ensures var q := nodes[j].value;
            var at := OffsetsFrom(q, 29 * |nodes| + Tails(nodes, rings, j));
            Even(q.scheduler) && Lists(q.scheduler) && HasAt(words, at.classes, ClassRecords(q.scheduler, Classes(q.scheduler)))
  {
    hide WriteRational, Tails, RampRecord, TagsAt, RampAt, Block, ClassRecords, Classes, HasAt;
  }

  lemma RecordIs(words: seq<U64>, s: Scheduler, at: nat, c: nat)
    requires Lists(s) && c < Classes(s) && at + 12 <= |words| && words[at..at + 12] == ClassRecord(s, c)
    ensures s.StaticPriority? ==> words[at] == s.priorities[c] && words[at + 1] == 0
    ensures s.Wfq? ==> words[at] == s.weights[c] && words[at + 1] == s.active[c] &&
                       words[at + 2..at + 12] == WriteRational(s.finish[c])
    ensures s.Drr? ==> words[at] == s.quanta[c] && words[at + 1] == s.deficits[c]
    ensures s.Wrr? ==> words[at] == s.shares[c] && words[at + 1] == s.sent[c]
  {
    hide WriteRational;
    var record := words[at..at + 12];
    assert record[0] == words[at] && record[1] == words[at + 1] && record[2..] == words[at + 2..at + 12];
  }

  /** The ramp's words: upper threshold, numerator of the top probability, scaled width and the key of its draws. */
  lemma RampSays(words: seq<U64>, nodes: seq<Option<Queue>>, rings: seq<Ring>, seed: U64, j: U64)
    requires j < |nodes| == |rings| && Stands(words, nodes, rings, seed, j) && nodes[j].Some? && nodes[j].value.ramp.Some?
    ensures var p, at := nodes[j].value.ramp.value, 29 * |nodes| + Tails(nodes, rings, j);
            && at + 4 <= |words|
            && words[at] == p.kmax && words[at + 1] == p.pmaxNumerator && EcnRamp.Span(p) == Some(words[at + 2])
            && words[at + 3] == EcnRamp.QueueKey(seed, j, 0)
  {
    hide WriteRational, Tails, TagsAt, ClassRecords, Block, EcnRamp.Span, EcnRamp.QueueKey;
    var p, at := nodes[j].value.ramp.value, 29 * |nodes| + Tails(nodes, rings, j);
    var record := RampRecord(p, seed, j).value;
    assert words[at..at + 4] == record;
    assert words[at..at + 4][0] == words[at] && words[at..at + 4][1] == words[at + 1];
    assert words[at..at + 4][2] == words[at + 2] && words[at..at + 4][3] == words[at + 3];
  }

  /** The finish tag of waiting packet `i` lies at the slot where the packet itself is read from its ring. */
  lemma TagSays(words: seq<U64>, nodes: seq<Option<Queue>>, rings: seq<Ring>, seed: U64, j: U64, i: nat, e: Compaction.Entity)
    requires j < |nodes| == |rings| && Stands(words, nodes, rings, seed, j) && nodes[j].Some?
    requires nodes[j].value.scheduler.Wfq? && i < |nodes[j].value.packets|
    requires e.capacity == rings[j].capacity && e.head == rings[j].head
    ensures var q, s := nodes[j].value, nodes[j].value.scheduler;
            var tags := 29 * |nodes| + Tails(nodes, rings, j) + (if q.ramp.Some? then 4 else 0) + 12 * |s.weights|;
            var at := tags + 10 * Compaction.Physical(Compaction.Shape.Ring, e, i);
            && at + 10 <= |words| && q.packets[i] in s.tags && words[at..at + 10] == WriteRational(s.tags[q.packets[i]])
  {
    hide WriteRational, Tails, RampRecord, ClassRecords, Block;
    var q := nodes[j].value;
    var at := OffsetsFrom(q, 29 * |nodes| + Tails(nodes, rings, j));
    assert TagsAt(words, at.tags, q.packets, q.scheduler.tags, rings[j], |q.packets|);
    assert q.packets[i] in q.scheduler.tags;
  }
}
