/** Priority flow control state in the scheduler plane: one row for each paused queue or host. */
module PfcRegion {
  import opened Events
  import opened Planes
  import opened Words
  import opened Bitsets
  import opened SplitMix

  const PRIORITIES: nat := 8
  const ROW_HEADER_WORDS: nat := 5
  const INGRESS_WORDS: nat := 43

  /** Eight words, one for each priority. */
  type Eight = s: seq<U64> | |s| == 8 witness [0, 0, 0, 0, 0, 0, 0, 0]

  type Flags = s: seq<bool> | |s| == 8 witness [false, false, false, false, false, false, false, false]

  /** One ingress monitor: what the image fixes, and the occupancy and assertions that change. */
  datatype Ingress = Ingress(
    link: U64, target: U64, delay: U64, capacity: Eight, xoff: Eight, xon: Eight, occupancy: Eight, asserted: Flags)

  /** What follows the pause bitsets: monitors of a switch queue, or queue pairs of a host. */
  datatype Tail = Monitors(ingresses: seq<Ingress>) | Pairs(flows: seq<U64>, parked: seq<set<U64>>)

  datatype Row = Row(lp: nat, controllers: seq<U64>, paused: seq<set<U64>>, tail: Tail)

  function FlagWords(flags: Flags): (r: Eight)
    ensures forall i | 0 <= i < 8 :: r[i] == if flags[i] then 1 else 0
  {
    seq(8, i requires 0 <= i < 8 => if flags[i] then 1 else 0)
  }

  function IngressRecord(g: Ingress): (r: seq<U64>)
    ensures |r| == INGRESS_WORDS
  {
    [g.link, g.target, g.delay] + g.capacity + g.xoff + g.xon + g.occupancy + FlagWords(g.asserted)
  }

  function IngressRecords(ingresses: seq<Ingress>): (r: seq<U64>)
    ensures |r| == |ingresses| * INGRESS_WORDS
  {
    if ingresses == [] then []
    else IngressRecords(ingresses[..|ingresses| - 1]) + IngressRecord(ingresses[|ingresses| - 1])
  }

  lemma {:induction false} RecordAt(ingresses: seq<Ingress>, k: nat)
    requires k < |ingresses|
    ensures IngressRecords(ingresses)[k * INGRESS_WORDS..(k + 1) * INGRESS_WORDS] == IngressRecord(ingresses[k])
  {
    var init := ingresses[..|ingresses| - 1];
    if k < |init| {
      RecordAt(init, k);
      assert IngressRecords(ingresses)[k * INGRESS_WORDS..(k + 1) * INGRESS_WORDS] ==
             IngressRecords(init)[k * INGRESS_WORDS..(k + 1) * INGRESS_WORDS];
    }
  }

  /** The words after the pause bitsets. */
  function TailWords(t: Tail): nat {
    match t
    case Monitors(ingresses) => |ingresses| * INGRESS_WORDS
    case Pairs(flows, _) => 1 + |flows| + PRIORITIES * WordsFor(|flows|)
  }

  function RowLength(row: Row, width: nat): nat {
    assert PRIORITIES * width >= 0;
    ROW_HEADER_WORDS + |row.controllers| + PRIORITIES * width + TailWords(row.tail)
  }

  /** The bitset width that fits every row. */
  function Width(rows: seq<Row>): (w: nat)
    ensures w >= 1 && forall k | 0 <= k < |rows| :: |rows[k].controllers| <= 64 * w
  {
    if rows == [] then 1
    else
      var before, last := Width(rows[..|rows| - 1]), WordsFor(|rows[|rows| - 1].controllers|);
      if before < last then last else before
  }

  function RowsLength(rows: seq<Row>, width: nat): nat {
    if rows == [] then 0 else RowsLength(rows[..|rows| - 1], width) + RowLength(rows[|rows| - 1], width)
  }

  /** The words of the whole region: the directory, the flow classes and the rows. */
  function RegionWords(nodes: nat, flows: nat, rows: seq<Row>): nat {
    if rows == [] then 0 else nodes + flows + RowsLength(rows, Width(rows))
  }

  /** A row can be written: its holders are among its distinct controllers, its parked slots among its pairs. */
  ghost predicate ValidRow(row: Row, nodes: nat) {
    && row.lp < nodes && |row.paused| == PRIORITIES && Distinct(row.controllers)
    && (forall p, x | 0 <= p < PRIORITIES && x in row.paused[p] :: x in row.controllers)
    && match row.tail
       case Monitors(_) => true
       case Pairs(flows, parked) =>
         |parked| == PRIORITIES && forall p, x | 0 <= p < PRIORITIES && x in parked[p] :: x < |flows|
  }

  /** The header of a row that starts at word `start`. */
  function Header(row: Row, width: nat, start: nat): (r: seq<nat>)
    ensures |r| == ROW_HEADER_WORDS
  {
    var monitors := if row.tail.Monitors? then |row.tail.ingresses| else 0;
    var bitsets := start + ROW_HEADER_WORDS + |row.controllers|;
    assert PRIORITIES * width >= 0;
    [|row.controllers|, monitors, width, bitsets, bitsets + PRIORITIES * width]
  }

  /** The row stands at `start`: its header, its controllers, its pause bitsets and its tail. */
  ghost predicate RowAt(words: seq<U64>, row: Row, width: nat, start: nat)
    requires |row.paused| == PRIORITIES
  {
    var n := |row.controllers|;
    var bitsets := start + ROW_HEADER_WORDS + n;
    var tail := bitsets + PRIORITIES * width;
    && start + RowLength(row, width) <= |words| && bitsets <= tail
    && HasAt(words, start, Header(row, width, start))
    && HasAt(words, start + ROW_HEADER_WORDS, row.controllers)
    && Encodes(words[bitsets..tail], width, row.controllers, row.paused)
    && TailAt(words, row.tail, tail, start + RowLength(row, width))
  }

  /** The tail of a row stands in the words from `from` to `to`: monitors, or queue pairs and those parked. */
  ghost predicate TailAt(words: seq<U64>, tail: Tail, from: nat, to: nat) {
    match tail
    case Monitors(ingresses) => HasAt(words, from, IngressRecords(ingresses))
    case Pairs(flows, parked) =>
      && HasAt(words, from, [|flows|] + flows) && from + 1 + |flows| <= to <= |words|
      && Parks(words[from + 1 + |flows|..to], flows, parked)
  }

  /** The words tell which slots of the queue pairs are parked in each class. */
  ghost predicate Parks(words: seq<U64>, flows: seq<U64>, parked: seq<set<U64>>) {
    |flows| <= U64_MAX && |parked| == PRIORITIES && Encodes(words, WordsFor(|flows|), Slots(|flows|), parked)
  }

  lemma TailKept(words: seq<U64>, after: seq<U64>, tail: Tail, from: nat, to: nat)
    requires TailAt(words, tail, from, to) && from <= to <= |words| && to <= |after| && after[from..to] == words[from..to]
    requires tail.Monitors? ==> from + |IngressRecords(tail.ingresses)| <= to
    ensures TailAt(after, tail, from, to)
  {
    hide IngressRecords, Parks;
    match tail
    case Monitors(ingresses) => SamePart(words, after, from, to, from, from + |IngressRecords(ingresses)|);
    case Pairs(flows, _) =>
      SamePart(words, after, from, to, from, from + 1 + |flows|);
      SamePart(words, after, from, to, from + 1 + |flows|, to);
  }

  /** A row depends on its own words only. */
  lemma RowKept(words: seq<U64>, after: seq<U64>, row: Row, width: nat, start: nat)
    requires |row.paused| == PRIORITIES && RowAt(words, row, width, start)
    requires |after| >= start + RowLength(row, width)
    requires after[start..start + RowLength(row, width)] == words[start..start + RowLength(row, width)]
    ensures RowAt(after, row, width, start)
  {
    hide Encodes, IngressRecords, Header, TailAt;
    var n := |row.controllers|;
    var bitsets := start + ROW_HEADER_WORDS + n;
    var tail := bitsets + PRIORITIES * width;
    var end := start + RowLength(row, width);
    SamePart(words, after, start, end, start, start + ROW_HEADER_WORDS);
    SamePart(words, after, start, end, start + ROW_HEADER_WORDS, bitsets);
    SamePart(words, after, start, end, bitsets, tail);
    SamePart(words, after, start, end, tail, end);
    TailKept(words, after, row.tail, tail, end);
  }

  lemma SamePart(words: seq<U64>, after: seq<U64>, start: nat, end: nat, from: nat, to: nat)
    requires start <= from <= to <= end <= |words| && end <= |after| && after[start..end] == words[start..end]
    ensures after[from..to] == words[from..to]
  {
    forall x | from <= x < to
      ensures after[x] == words[x]
    {
      assert after[start..end][x - start] == words[start..end][x - start];
    }
  }

  function Slots(n: U64): (r: seq<U64>)
    ensures |r| == n && Distinct(r) && forall i | 0 <= i < n :: r[i] == i
  {
    seq(n, i requires 0 <= i < n => i)
  }

  lemma SlotsHold(n: U64, x: U64)
    requires x < n
    ensures x in Slots(n)
  {
    assert Slots(n)[x] == x;
  }

  /** The words after the pause bitsets. */
  method WriteTail(t: Tail) returns (words: seq<U64>)
    requires t.Pairs? ==>
               && |t.flows| <= U64_MAX && |t.parked| == PRIORITIES
               && forall p, x | 0 <= p < PRIORITIES && x in t.parked[p] :: x < |t.flows|
    ensures |words| == TailWords(t)
    ensures match t
            case Monitors(ingresses) => words == IngressRecords(ingresses)
            case Pairs(flows, parked) =>
              && words[..1 + |flows|] == [|flows|] + flows
              && Parks(words[1 + |flows|..], flows, parked)
  {
    match t {
      case Monitors(ingresses) => words := IngressRecords(ingresses);
      case Pairs(flows, parked) =>
        forall p, x | 0 <= p < PRIORITIES && x in parked[p]
          ensures x in Slots(|flows|)
        {
          SlotsHold(|flows|, x);
        }
        var bits := EncodeSets(Slots(|flows|), parked, WordsFor(|flows|));
        words := [|flows|] + flows + bits;
        assert words[1 + |flows|..] == bits;
    }
  }

  /** `word | (slot << 16)`. */
  function OrSlot(word: U64, slot: nat): U64 {
    OrFits(word / 0x1_0000, slot, 48);
    SlotBits();
    word % 0x1_0000 + 0x1_0000 * OrBits(word / 0x1_0000, slot, 48)
  }

  lemma SlotBits()
    ensures Pow2(48) == 0x1_0000_0000_0000
  {
    PowersMultiply(24, 24);
    PowersMultiply(12, 12);
    assert Pow2(12) == 4096;
  }

  lemma {:induction false} OrFits(a: nat, b: nat, n: nat)
    ensures OrBits(a, b, n) < Pow2(n)
    decreases n
  {
    if n > 0 {
      OrFits(a / 2, b / 2, n - 1);
    }
  }

  lemma {:induction false} OrWithZero(b: nat, n: nat)
    requires b < Pow2(n)
    ensures OrBits(0, b, n) == b
    decreases n
  {
    if n > 0 {
      HalfFits(b, n);
      OrWithZero(b / 2, n - 1);
    }
  }

  /** A class word without a slot takes one in its upper bits. */
  lemma SlotIsAdded(word: U64, slot: nat)
    requires word < 0x1_0000 && slot < 0x1_0000_0000_0000
    ensures OrSlot(word, slot) == word + 0x1_0000 * slot
  {
    hide Pow2, OrBits;
    SlotBits();
    OrWithZero(slot, 48);
    assert word / 0x1_0000 == 0 && word % 0x1_0000 == word;
  }

  /** The class words after the first `n` queue pairs of a list have put their slots into them. */
  function Stamped(classes: seq<U64>, flows: seq<U64>, n: nat): (r: seq<U64>)
    requires n <= |flows|
    ensures |r| == |classes|
  {
    if n == 0 then classes
    else
      var before, flow := Stamped(classes, flows, n - 1), flows[n - 1];
      if flow < |classes| then before[flow := OrSlot(before[flow], n - 1)] else before
  }

  function StampedBy(classes: seq<U64>, t: Tail): (r: seq<U64>)
    ensures |r| == |classes|
  {
    if t.Pairs? then Stamped(classes, t.flows, |t.flows|) else classes
  }

  /** The class words after the first `n` rows. */
  function StampedByFirst(classes: seq<U64>, rows: seq<Row>, n: nat): (r: seq<U64>)
    requires n <= |rows|
    ensures |r| == |classes|
  {
    if n == 0 then classes else StampedBy(StampedByFirst(classes, rows, n - 1), rows[n - 1].tail)
  }

  ghost predicate KnownFlows(t: Tail, flowCount: nat) { t.Pairs? ==> forall i | 0 <= i < |t.flows| :: t.flows[i] < flowCount }

  /** Puts the slots of a row's queue pairs into the class words. Fails exactly if a flow is unknown. */
  method Stamp(classes: seq<U64>, t: Tail) returns (r: Option<seq<U64>>)
    ensures r.Some? <==> KnownFlows(t, |classes|)
    ensures r.Some? ==> r.value == StampedBy(classes, t)
  {
    hide OrSlot;
    if t.Monitors? {
      return Some(classes);
    }
    var stamped := classes;
    for slot: nat := 0 to |t.flows|
      invariant stamped == Stamped(classes, t.flows, slot) && forall i | 0 <= i < slot :: t.flows[i] < |classes|
    {
      if t.flows[slot] >= |classes| {
        return None;
      }
      stamped := stamped[t.flows[slot] := OrSlot(stamped[t.flows[slot]], slot)];
    }
    return Some(stamped);
  }

  /** The words before a new row: its directory entry and the class words have changed. */
  ghost predicate Touched(words: seq<U64>, after: seq<U64>, entry: nat, start: nat, from: nat, classes: seq<U64>) {
    && |after| == |words| && entry < from <= from + |classes| <= |words|
    && after[entry] == start && after[from..from + |classes|] == classes
    && forall x | 0 <= x < |words| && x != entry && !(from <= x < from + |classes|) :: after[x] == words[x]
  }

  /** Appends a row, enters it in the directory and puts its slots into the class words. */
  method AppendRow(words: seq<U64>, region: nat, nodes: nat, flowCount: nat, row: Row, width: nat) returns (r: Option<seq<U64>>)
    requires ValidRow(row, nodes) && region + nodes + flowCount <= |words| && |row.controllers| <= 64 * width
    ensures r.Some? <==> |words| + RowLength(row, width) <= U64_MAX && KnownFlows(row.tail, flowCount)
    ensures r.Some? ==>
              && |r.value| == |words| + RowLength(row, width)
              && Touched(words, r.value[..|words|], region + row.lp, |words|, region + nodes,
                         StampedBy(words[region + nodes..region + nodes + flowCount], row.tail))
              && RowAt(r.value, row, width, |words|)
  {
    hide Encodes, IngressRecords, Distinct, StampedBy, KnownFlows, Parks, RowAt, Touched;
    var start := |words|;
    if start + RowLength(row, width) > U64_MAX {
      return None;
    }
    var from, floor := region + nodes, region + nodes + flowCount;
    var classes := Stamp(words[from..floor], row.tail);
    if classes.None? {
      return None;
    }
    assert PRIORITIES * width >= 0;
    var header: seq<U64> := Header(row, width, start);
    var bits := EncodeSets(row.controllers, row.paused, width);
    EncodedLength(bits, width, row.controllers, row.paused);
    var tail := WriteTail(row.tail);
    var before := words[..from][region + row.lp := start] + classes.value + words[floor..];
    BeforeIsTouched(words, before, region + row.lp, start, from, floor, classes.value);
    PartsOfRow(before, header, row.controllers, bits, tail);
    r := Some(before + header + row.controllers + bits + tail);
    assert |r.value| == start + RowLength(row, width);
    RowStands(r.value, row, width, start, bits, tail);
  }

  lemma BeforeIsTouched(words: seq<U64>, before: seq<U64>, entry: nat, start: U64, from: nat, floor: nat, classes: seq<U64>)
    requires entry < from <= floor <= |words| && |classes| == floor - from
    requires before == words[..from][entry := start] + classes + words[floor..]
    ensures Touched(words, before, entry, start, from, classes)
  {
  }

  lemma EncodedLength(words: seq<U64>, width: nat, candidates: seq<U64>, sets: seq<set<U64>>)
    requires Encodes(words, width, candidates, sets)
    ensures |words| == |sets| * width
  {
  }

  lemma PartsOfRow(words: seq<U64>, a: seq<U64>, b: seq<U64>, c: seq<U64>, d: seq<U64>)
    ensures var all, at := words + a + b + c + d, |words|;
            && all[..at] == words
            && all[at..at + |a|] == a && all[at + |a|..at + |a| + |b|] == b
            && all[at + |a| + |b|..at + |a| + |b| + |c|] == c
            && all[at + |a| + |b| + |c|..] == d
  {
    var at := |words|;
    var one := words + a;
    var two := one + b;
    var three := two + c;
    SliceKept(three, d, at + |a| + |b|, |three|);
    SliceKept(three, d, at + |a|, |two|);
    SliceKept(three, d, at, |one|);
    SliceKept(three, d, 0, at);
    SliceKept(two, c, at + |a|, |two|);
    SliceKept(two, c, at, |one|);
    SliceKept(two, c, 0, at);
    SliceKept(one, b, at, |one|);
    SliceKept(one, b, 0, at);
  }

  lemma SliceKept(words: seq<U64>, more: seq<U64>, from: nat, to: nat)
    requires from <= to <= |words|
    ensures (words + more)[from..to] == words[from..to]
  {
  }

  lemma RowStands(words: seq<U64>, row: Row, width: nat, start: nat, bits: seq<U64>, tail: seq<U64>)
    requires |row.paused| == PRIORITIES && |words| == start + RowLength(row, width) && |tail| == TailWords(row.tail)
    requires var n := |row.controllers|;
             var at := start + ROW_HEADER_WORDS + n;
             && |bits| == PRIORITIES * width
             && words[start..start + ROW_HEADER_WORDS] == Header(row, width, start)
             && words[start + ROW_HEADER_WORDS..at] == row.controllers
             && words[at..at + |bits|] == bits && words[at + |bits|..] == tail
    requires Encodes(bits, width, row.controllers, row.paused)
    requires match row.tail
             case Monitors(ingresses) => tail == IngressRecords(ingresses)
             case Pairs(flows, parked) => tail[..1 + |flows|] == [|flows|] + flows && Parks(tail[1 + |flows|..], flows, parked)
    ensures RowAt(words, row, width, start)
  {
    hide Encodes, IngressRecords, Header, Parks;
    var at := start + ROW_HEADER_WORDS + |row.controllers| + |bits|;
    match row.tail
    case Monitors(ingresses) => assert words[at..at + |tail|] == words[at..];
    case Pairs(flows, _) =>
      assert words[at..at + 1 + |flows|] == words[at..][..1 + |flows|];
      assert words[at + 1 + |flows|..start + RowLength(row, width)] == words[at..][1 + |flows|..];
  }

  ghost predicate DistinctLps(rows: seq<Row>) {
    forall i, j | 0 <= i < j < |rows| :: rows[i].lp != rows[j].lp
  }

  /** Row `k` is in the directory and stands behind the flow classes, within the plane. */
  ghost predicate Entered(words: seq<U64>, region: nat, rows: seq<Row>, width: nat, floor: nat, k: nat)
    requires k < |rows| && |rows[k].paused| == PRIORITIES
  {
    && region + rows[k].lp < floor <= |words|
    && words[region + rows[k].lp] == floor + RowsLength(rows[..k], width)
    && RowAt(words, rows[k], width, words[region + rows[k].lp])
  }

  /** The first `n` rows are in the directory. */
  ghost predicate AllEntered(words: seq<U64>, region: nat, rows: seq<Row>, width: nat, floor: nat, n: nat)
    requires n <= |rows|
  {
    forall k | 0 <= k < n :: |rows[k].paused| == PRIORITIES && Entered(words, region, rows, width, floor, k)
  }

  ghost predicate HasNoRow(rows: seq<Row>, n: nat, lp: nat)
    requires n <= |rows|
  {
    forall k | 0 <= k < n :: rows[k].lp != lp
  }

  /** The directory says that a node without a row has none. */
  ghost predicate OthersHaveNone(words: seq<U64>, region: nat, nodes: nat, rows: seq<Row>, n: nat)
    requires n <= |rows|
  {
    region + nodes <= |words| && forall lp: nat | lp < nodes && HasNoRow(rows, n, lp) :: words[region + lp] == NONE
  }

  /** Appending another row keeps the rows before it. */
  lemma EnteredKept(words: seq<U64>, after: seq<U64>, region: nat, nodes: nat, rows: seq<Row>, width: nat, floor: nat, k: nat,
                    n: nat, classes: seq<U64>)
    requires k < n < |rows| && |rows[k].paused| == PRIORITIES && rows[k].lp != rows[n].lp && rows[k].lp < nodes
    requires Entered(words, region, rows, width, floor, k) && |words| <= U64_MAX && |after| >= |words|
    requires floor == region + nodes + |classes|
    requires Touched(words, after[..|words|], region + rows[n].lp, |words|, region + nodes, classes)
    ensures Entered(after, region, rows, width, floor, k)
  {
    hide RowAt;
    var start := words[region + rows[k].lp];
    RowFits(words, rows[k], width, start);
    forall x | 0 <= x < |words| && x != region + rows[n].lp && !(region + nodes <= x < floor)
      ensures after[x] == words[x]
    {
      assert after[..|words|][x] == words[x];
    }
    RowKept(words, after, rows[k], width, start);
  }

  lemma RowFits(words: seq<U64>, row: Row, width: nat, start: nat)
    requires |row.paused| == PRIORITIES && RowAt(words, row, width, start)
    ensures start + RowLength(row, width) <= |words|
  {
  }

  lemma {:induction false} LengthGrows(rows: seq<Row>, width: nat, k: nat)
    requires k <= |rows|
    ensures RowsLength(rows[..k], width) <= RowsLength(rows, width)
    decreases |rows| - k
  {
    if k < |rows| {
      assert rows[..k + 1][..k] == rows[..k];
      LengthGrows(rows, width, k + 1);
    } else {
      assert rows[..k] == rows;
    }
  }

  ghost predicate AllKnown(rows: seq<Row>, n: nat, flowCount: nat)
    requires n <= |rows|
  {
    forall k | 0 <= k < n :: KnownFlows(rows[k].tail, flowCount)
  }

  /** Appends the region: a directory of rows by node, the flow classes with the slots of queue pairs,
      then the rows. Without rows nothing is appended. It takes exactly the words foreseen, and fails
      only if they do not fit or a queue pair has an unknown flow. */
  method AppendRegion(words: seq<U64>, nodes: nat, classes: seq<U64>, rows: seq<Row>)
    returns (r: Option<seq<U64>>, region: Option<nat>)
    requires DistinctLps(rows) && forall k | 0 <= k < |rows| :: ValidRow(rows[k], nodes)
    ensures rows == [] ==> r == Some(words) && region.None?
    ensures rows != [] ==>
              (r.Some? <==> |words| + RegionWords(nodes, |classes|, rows) <= U64_MAX && AllKnown(rows, |rows|, |classes|))
    ensures r.Some? ==>
              && |r.value| == |words| + RegionWords(nodes, |classes|, rows)
              && r.value[..|words|] == words
    ensures r.Some? && rows != [] ==>
              && region == Some(|words|)
              && r.value[|words| + nodes..|words| + nodes + |classes|] == StampedByFirst(classes, rows, |rows|)
              && AllEntered(r.value, |words|, rows, Width(rows), |words| + nodes + |classes|, |rows|)
              && OthersHaveNone(r.value, |words|, nodes, rows, |rows|)
  {
    hide RowAt, Width, RowLength, AllEntered, StampedByFirst, KnownFlows, Touched, OthersHaveNone, Grown, AllKnown;
    if rows == [] {
      return Some(words), None;
    }
    var width, base := Width(rows), |words|;
    var grown: seq<U64> := words + seq(nodes, _ => NONE) + classes;
    NothingGrown(words, nodes, classes, rows, width, grown);
    for k := 0 to |rows|
      invariant Grown(words, nodes, classes, rows, width, grown, k) && AllKnown(rows, k, |classes|)
      invariant k > 0 ==> |grown| <= U64_MAX
    {
      assert ValidRow(rows[k], nodes);
      GrownFacts(words, nodes, classes, rows, width, grown, k);
      var next := AppendRow(grown, base, nodes, |classes|, rows[k], width);
      KnownNext(rows, k, |classes|);
      if next.None? {
        LengthGrows(rows, width, k + 1);
        return None, Some(base);
      }
      GrownNext(words, nodes, classes, rows, width, grown, next.value, k);
      grown := next.value;
    }
    GrownAll(words, nodes, classes, rows, width, grown);
    return Some(grown), Some(base);
  }

  /** The region with its first `k` rows. */
  ghost predicate Grown(words: seq<U64>, nodes: nat, classes: seq<U64>, rows: seq<Row>, width: nat, grown: seq<U64>, k: nat)
    requires k <= |rows|
  {
    var base, floor := |words|, |words| + nodes + |classes|;
    && |grown| == floor + RowsLength(rows[..k], width)
    && grown[..base] == words && grown[base + nodes..floor] == StampedByFirst(classes, rows, k)
    && AllEntered(grown, base, rows, width, floor, k) && OthersHaveNone(grown, base, nodes, rows, k)
  }

  lemma NothingGrown(words: seq<U64>, nodes: nat, classes: seq<U64>, rows: seq<Row>, width: nat, grown: seq<U64>)
    requires grown == words + seq(nodes, _ => NONE) + classes
    ensures Grown(words, nodes, classes, rows, width, grown, 0) && AllKnown(rows, 0, |classes|)
  {
    assert grown[|words| + nodes..|words| + nodes + |classes|] == classes;
  }

  lemma GrownFacts(words: seq<U64>, nodes: nat, classes: seq<U64>, rows: seq<Row>, width: nat, grown: seq<U64>, k: nat)
    requires k < |rows| && Grown(words, nodes, classes, rows, width, grown, k)
    ensures |words| + nodes + |classes| <= |grown| == |words| + nodes + |classes| + RowsLength(rows[..k], width)
    ensures RowsLength(rows[..k + 1], width) == RowsLength(rows[..k], width) + RowLength(rows[k], width)
    ensures grown[|words| + nodes..|words| + nodes + |classes|] == StampedByFirst(classes, rows, k)
  {
    hide RowLength, AllEntered, OthersHaveNone, StampedByFirst;
    assert rows[..k + 1][..k] == rows[..k];
  }

  lemma KnownNext(rows: seq<Row>, k: nat, flowCount: nat)
    requires k < |rows| && AllKnown(rows, k, flowCount)
    ensures AllKnown(rows, k + 1, flowCount) <==> KnownFlows(rows[k].tail, flowCount)
    ensures !KnownFlows(rows[k].tail, flowCount) ==> !AllKnown(rows, |rows|, flowCount)
  {
    hide KnownFlows;
  }

  lemma GrownNext(words: seq<U64>, nodes: nat, classes: seq<U64>, rows: seq<Row>, width: nat, grown: seq<U64>, after: seq<U64>, k: nat)
    requires k < |rows| && DistinctLps(rows) && (forall j | 0 <= j < |rows| :: ValidRow(rows[j], nodes))
    requires Grown(words, nodes, classes, rows, width, grown, k) && |words| + nodes + |classes| <= |grown| <= U64_MAX
    requires |rows[k].paused| == PRIORITIES && rows[k].lp < nodes
    requires |after| == |grown| + RowLength(rows[k], width) && RowAt(after, rows[k], width, |grown|)
    requires Touched(grown, after[..|grown|], |words| + rows[k].lp, |grown|, |words| + nodes,
                     StampedBy(grown[|words| + nodes..|words| + nodes + |classes|], rows[k].tail))
    ensures Grown(words, nodes, classes, rows, width, after, k + 1)
  {
    hide RowAt, RowLength, AllEntered, StampedBy, Touched, OthersHaveNone;
    GrownFacts(words, nodes, classes, rows, width, grown, k);
    var base, floor := |words|, |words| + nodes + |classes|;
    var stamped := StampedByFirst(classes, rows, k + 1);
    NewRowEntered(grown, after, base, nodes, rows, width, floor, k, stamped);
    DirectoryKept(grown, after, base, base + rows[k].lp, floor, nodes, stamped);
    NoneKept(grown, after, base, nodes, rows, k);
  }

  lemma GrownAll(words: seq<U64>, nodes: nat, classes: seq<U64>, rows: seq<Row>, width: nat, grown: seq<U64>)
    requires rows != [] && width == Width(rows) && Grown(words, nodes, classes, rows, width, grown, |rows|)
    ensures |grown| == |words| + RegionWords(nodes, |classes|, rows) && grown[..|words|] == words
    ensures grown[|words| + nodes..|words| + nodes + |classes|] == StampedByFirst(classes, rows, |rows|)
    ensures AllEntered(grown, |words|, rows, width, |words| + nodes + |classes|, |rows|)
    ensures OthersHaveNone(grown, |words|, nodes, rows, |rows|)
  {
    hide AllEntered, OthersHaveNone, StampedByFirst, Width, RowsLength;
    assert rows[..|rows|] == rows;
  }

  lemma NewRowEntered(grown: seq<U64>, after: seq<U64>, base: nat, nodes: nat, rows: seq<Row>, width: nat, floor: nat, k: nat,
                      classes: seq<U64>)
    requires k < |rows| && DistinctLps(rows) && (forall j | 0 <= j < |rows| :: ValidRow(rows[j], nodes))
    requires base + nodes + |classes| == floor <= |grown| <= U64_MAX && AllEntered(grown, base, rows, width, floor, k)
    requires rows[k].lp < nodes && |rows[k].paused| == PRIORITIES
    requires |after| >= |grown| == floor + RowsLength(rows[..k], width)
    requires Touched(grown, after[..|grown|], base + rows[k].lp, |grown|, base + nodes, classes)
    requires RowAt(after, rows[k], width, |grown|)
    ensures AllEntered(after, base, rows, width, floor, k + 1)
  {
    hide RowAt;
    assert ValidRow(rows[k], nodes);
    assert after[base + rows[k].lp] == after[..|grown|][base + rows[k].lp];
    forall j | 0 <= j < k
      ensures |rows[j].paused| == PRIORITIES && Entered(after, base, rows, width, floor, j)
    {
      assert ValidRow(rows[j], nodes);
      EnteredKept(grown, after, base, nodes, rows, width, floor, j, k, classes);
    }
  }

  lemma NoneKept(grown: seq<U64>, after: seq<U64>, base: nat, nodes: nat, rows: seq<Row>, k: nat)
    requires k < |rows| && OthersHaveNone(grown, base, nodes, rows, k) && |after| >= base + nodes
    requires forall x | base <= x < base + nodes && x != base + rows[k].lp :: after[x] == grown[x]
    ensures OthersHaveNone(after, base, nodes, rows, k + 1)
  {
    var next := k + 1;
    forall lp: nat | lp < nodes && HasNoRow(rows, next, lp)
      ensures after[base + lp] == NONE
    {
      assert HasNoRow(rows, k, lp);
    }
  }

  /** Entering a row changes one word of the directory, and the class words, only. */
  lemma DirectoryKept(grown: seq<U64>, after: seq<U64>, base: nat, entry: nat, floor: nat, nodes: nat, classes: seq<U64>)
    requires base <= entry < base + nodes && base + nodes + |classes| == floor <= |grown| <= U64_MAX && |after| >= |grown|
    requires Touched(grown, after[..|grown|], entry, |grown|, base + nodes, classes)
    ensures after[..base] == grown[..base] && after[base + nodes..floor] == classes
    ensures forall x | base <= x < base + nodes && x != entry :: after[x] == grown[x]
  {
    forall x | 0 <= x < base + nodes && x != entry
      ensures after[x] == grown[x]
    {
      assert after[..|grown|][x] == grown[x];
    }
    assert after[base + nodes..floor] == after[..|grown|][base + nodes..floor];
  }

  /** Flow `f` is the queue pair at slot `slot` of row `k`. */
  ghost predicate PairAt(rows: seq<Row>, k: nat, slot: nat, f: U64) {
    k < |rows| && rows[k].tail.Pairs? && slot < |rows[k].tail.flows| && rows[k].tail.flows[slot] == f
  }

  /** Every flow is a queue pair of at most one host, once. */
  ghost predicate OnePairEach(rows: seq<Row>) {
    forall k: nat, i: nat, j: nat, h: nat, f: U64 | PairAt(rows, k, i, f) && PairAt(rows, j, h, f) :: k == j && i == h
  }

  /** A stamp leaves flows outside the list alone, and gives the others their slot. */
  lemma {:induction false} StampTells(classes: seq<U64>, flows: seq<U64>, n: nat, f: U64)
    requires n <= |flows| && f < |classes| && Distinct(flows)
    ensures f !in flows[..n] ==> Stamped(classes, flows, n)[f] == classes[f]
    ensures forall i | 0 <= i < n && flows[i] == f :: Stamped(classes, flows, n)[f] == OrSlot(classes[f], i)
  {
    hide OrSlot;
    if n > 0 {
      StampTells(classes, flows, n - 1, f);
      assert flows[..n] == flows[..n - 1] + [flows[n - 1]];
    }
  }

  /** In the region each queue pair finds its slot in its class word, and every other flow none. */
  lemma {:induction false} SlotsInClasses(classes: seq<U64>, rows: seq<Row>, n: nat, f: U64)
    requires n <= |rows| && f < |classes| && OnePairEach(rows)
    ensures (forall k: nat, i: nat | k < n :: !PairAt(rows, k, i, f)) ==> StampedByFirst(classes, rows, n)[f] == classes[f]
    ensures forall k: nat, i: nat | k < n && PairAt(rows, k, i, f) ::
              StampedByFirst(classes, rows, n)[f] == OrSlot(classes[f], i)
  {
    hide OrSlot, Stamped;
    if n > 0 {
      SlotsInClasses(classes, rows, n - 1, f);
      var t := rows[n - 1].tail;
      if t.Pairs? {
        forall i, j | 0 <= i < j < |t.flows|
          ensures t.flows[i] != t.flows[j]
        {
          assert PairAt(rows, n - 1, i, t.flows[i]) && PairAt(rows, n - 1, j, t.flows[j]);
        }
        StampTells(StampedByFirst(classes, rows, n - 1), t.flows, |t.flows|, f);
        assert t.flows[..|t.flows|] == t.flows;
        if f in t.flows {
          var i: nat :| i < |t.flows| && t.flows[i] == f;
          assert PairAt(rows, n - 1, i, f);
        }
      }
    }
  }

  /** The class word of a queue pair gives its class back in the low 16 bits and its slot above them. */
  lemma SlotComesBack(classes: seq<U64>, rows: seq<Row>, f: U64, k: nat, i: nat)
    requires f < |classes| && OnePairEach(rows) && k < |rows| && PairAt(rows, k, i, f)
    requires classes[f] < 0x1_0000 && i < 0x1_0000_0000_0000
    ensures var word := StampedByFirst(classes, rows, |rows|)[f];
            word % 0x1_0000 == classes[f] && word / 0x1_0000 == i
  {
    hide OrSlot, StampedByFirst, OnePairEach, PairAt;
    SlotsInClasses(classes, rows, |rows|, f);
    SlotIsAdded(classes[f], i);
  }
}
