/** The indexed binary heap in which a worker keeps the next event time of each of its processes. */
module FrontierIndex {
  import opened Events

  datatype Entry = Entry(time: U64, node: U64, slot: nat)

  /** Entries are ordered by time, then node, then slot. */
  predicate Less(a: Entry, b: Entry) {
    || a.time < b.time
    || (a.time == b.time && a.node < b.node)
    || (a.time == b.time && a.node == b.node && a.slot < b.slot)
  }

  const NO_INDEX_SLOT: nat := U64_MAX

  function Parent(p: nat): nat
    requires p > 0
  {
    (p - 1) / 2
  }

  /** What the index stands for: the next time and the node of every active slot. */
  type Frontier = map<nat, (U64, U64)>

  /** `e` is the least entry of the frontier. */
  ghost predicate IsLeastEntry(e: Entry, f: Frontier) {
    && e.slot in f && f[e.slot] == (e.time, e.node)
    && forall s | s in f && s != e.slot :: Less(e, Entry(f[s].0, f[s].1, s))
  }

  /** The edge from `p` to its parent is in order. */
  ghost predicate EdgeHolds(heap: seq<Entry>, p: nat)
    requires 0 < p < |heap|
  {
    !Less(heap[p], heap[Parent(p)])
  }

  ghost predicate HeapOrdered(heap: seq<Entry>) {
    forall p {:trigger EdgeHolds(heap, p)} | 0 < p < |heap| :: EdgeHolds(heap, p)
  }

  /** Only the edges at `hole` may be out of order, and none of its children precedes its parent. */
  ghost predicate OrderedAround(heap: seq<Entry>, hole: nat) {
    && (forall p {:trigger EdgeHolds(heap, p)} | 0 < p < |heap| && p != hole && Parent(p) != hole :: EdgeHolds(heap, p))
    && (forall p {:trigger EdgeHolds(heap, p)} | 0 < p < |heap| && Parent(p) == hole && 0 < hole < |heap| ::
          !Less(heap[p], heap[Parent(hole)]))
  }

  /** The edges from `hole` down are in order. */
  ghost predicate HoldsBelow(heap: seq<Entry>, hole: nat) {
    forall p {:trigger EdgeHolds(heap, p)} | 0 < p < |heap| && Parent(p) == hole :: EdgeHolds(heap, p)
  }

  lemma {:induction false} RootIsLeast(heap: seq<Entry>, p: nat)
    requires HeapOrdered(heap) && p < |heap|
    ensures !Less(heap[p], heap[0])
    decreases p
  {
    if p > 0 {
      RootIsLeast(heap, Parent(p));
      assert EdgeHolds(heap, p);
    }
  }

  /** `indexSlot` and `heap` are inverse to each other on exactly the active slots. */
  ghost predicate AreLinked(heap: seq<Entry>, nextTime: seq<U64>, active: seq<bool>, indexSlot: seq<nat>) {
    && |nextTime| == |active| == |indexSlot|
    && (forall p {:trigger heap[p]} | 0 <= p < |heap| ::
          var s := heap[p].slot;
          s < |active| && active[s] && indexSlot[s] == p && nextTime[s] == heap[p].time)
    && (forall s {:trigger active[s]} | 0 <= s < |active| ::
          if active[s] then indexSlot[s] < |heap| && heap[indexSlot[s]].slot == s
          else indexSlot[s] == NO_INDEX_SLOT)
  }

  ghost function FrontierOf(heap: seq<Entry>, nextTime: seq<U64>, active: seq<bool>, indexSlot: seq<nat>): Frontier
    requires AreLinked(heap, nextTime, active, indexSlot)
  {
    map s | 0 <= s < |active| && active[s] :: (heap[indexSlot[s]].time, heap[indexSlot[s]].node)
  }

  /** Moving the last entry into the place of the one at `index` drops that one only. */
  lemma DetachKeepsLinks(heap: seq<Entry>, nextTime: seq<U64>, active: seq<bool>, indexSlot: seq<nat>, index: nat)
    requires AreLinked(heap, nextTime, active, indexSlot) && index < |heap|
    ensures var slot, last, short := heap[index].slot, heap[|heap| - 1], heap[..|heap| - 1];
            var active', freed := active[slot := false], indexSlot[slot := NO_INDEX_SLOT];
            if index < |short| then AreLinked(short[index := last], nextTime, active', freed[last.slot := index])
            else AreLinked(short, nextTime, active', freed)
  {
  }

  lemma DetachKeepsOthers(heap: seq<Entry>, nextTime: seq<U64>, active: seq<bool>, indexSlot: seq<nat>, index: nat)
    requires AreLinked(heap, nextTime, active, indexSlot) && index < |heap|
    ensures var slot, last, short := heap[index].slot, heap[|heap| - 1], heap[..|heap| - 1];
            var active', freed := active[slot := false], indexSlot[slot := NO_INDEX_SLOT];
            var others := FrontierOf(heap, nextTime, active, indexSlot) - {slot};
            if index < |short| then
              && AreLinked(short[index := last], nextTime, active', freed[last.slot := index])
              && FrontierOf(short[index := last], nextTime, active', freed[last.slot := index]) == others
            else
              && AreLinked(short, nextTime, active', freed)
              && FrontierOf(short, nextTime, active', freed) == others
  {
    DetachKeepsLinks(heap, nextTime, active, indexSlot, index);
    assert active[heap[index].slot];
  }

  class OwnerFrontierIndex {
    var heap: seq<Entry>
    var nextTime: seq<U64>
    var active: seq<bool>
    var indexSlot: seq<nat>

    ghost predicate Linked()
      reads this
    {
      AreLinked(heap, nextTime, active, indexSlot)
    }

    ghost predicate Valid()
      reads this
    {
      Linked() && HeapOrdered(heap)
    }

    ghost function View(): Frontier
      requires Linked()
      reads this
    {
      FrontierOf(heap, nextTime, active, indexSlot)
    }

    constructor (count: nat)
      ensures Valid() && |active| == count && View() == map[]
    {
      heap := [];
      nextTime := seq(count, _ => 0);
      active := seq(count, _ => false);
      indexSlot := seq(count, _ => NO_INDEX_SLOT);
    }

    method Swap(left: nat, right: nat)
      requires Linked() && left < |heap| && right < |heap| && left != right
      modifies this`heap, this`indexSlot
      ensures Linked() && View() == old(View())
      ensures heap == old(heap[left := heap[right]][right := heap[left]])
    {
      var a, b := heap[left], heap[right];
      heap := heap[left := b][right := a];
      indexSlot := indexSlot[b.slot := left][a.slot := right];
    }

    method SiftUp(start: nat)
      requires Linked() && start < |heap| && OrderedAround(heap, start) && HoldsBelow(heap, start)
      modifies this`heap, this`indexSlot
      ensures Valid() && View() == old(View()) && |heap| == old(|heap|)
    {
      var index: nat := start;
      while index != 0
        invariant index < |heap| == old(|heap|)
        invariant Linked() && View() == old(View())
        invariant OrderedAround(heap, index) && HoldsBelow(heap, index)
      {
        var parent := Parent(index);
        if !Less(heap[index], heap[parent]) {
          assert EdgeHolds(heap, index);
          break;
        }
        ghost var before := heap;
        Swap(index, parent);
        SwapUpKeepsOrder(before, index);
        index := parent;
      }
    }

    method SiftDown(start: nat)
      requires Linked() && start < |heap| && OrderedAround(heap, start)
      requires start > 0 ==> EdgeHolds(heap, start)
      modifies this`heap, this`indexSlot
      ensures Valid() && View() == old(View()) && |heap| == old(|heap|)
    {
      hide EdgeHolds, OrderedAround, IsLeastChild, HeapOrdered;
      var index: nat := start;
      while true
        invariant index < |heap| == old(|heap|)
        invariant Linked() && View() == old(View())
        invariant OrderedAround(heap, index) && (index > 0 ==> EdgeHolds(heap, index))
        decreases |heap| - index
      {
        var left: nat := 2 * index + 1;
        if left >= |heap| {
          NoChildLeft(heap, index);
          return;
        }
        var right: nat := left + 1;
        var child: nat := if right < |heap| && Less(heap[right], heap[left]) then right else left;
        ChosenChild(heap, index, child);
        if !Less(heap[child], heap[index]) {
          LeastChildHolds(heap, index, child);
          return;
        }
        ghost var before := heap;
        Swap(index, child);
        SwapDownKeepsOrder(before, index, child);
        index := child;
      }
    }

    method RestoreAt(index: nat)
      requires Linked() && index < |heap| && OrderedAround(heap, index)
      modifies this`heap, this`indexSlot
      ensures Valid() && View() == old(View()) && |heap| == old(|heap|)
    {
      if index != 0 && Less(heap[index], heap[Parent(index)]) {
        LowEntryHoldsBelow(heap, index);
        SiftUp(index);
      } else {
        SiftDown(index);
      }
    }

    /** Moves the last entry into the place of the one at `index`. */
    method Detach(index: nat)
      requires Linked() && index < |heap|
      modifies this`heap, this`indexSlot, this`active
      ensures Linked() && |active| == old(|active|)
      ensures View() == old(View()) - {old(heap[index].slot)}
      ensures heap == old(var short := heap[..|heap| - 1];
                          if index < |short| then short[index := heap[|heap| - 1]] else short)
    {
      var removed, last := heap[index].slot, heap[|heap| - 1];
      heap := heap[..|heap| - 1];
      active := active[removed := false];
      indexSlot := indexSlot[removed := NO_INDEX_SLOT];
      if index < |heap| {
        heap := heap[index := last];
        indexSlot := indexSlot[last.slot := index];
      }
      DetachKeepsOthers(old(heap), nextTime, old(active), old(indexSlot), index);
    }

    method RemoveAt(index: nat) returns (removed: Entry)
      requires Valid() && index < |heap|
      modifies this`heap, this`indexSlot, this`active
      ensures Valid() && |active| == old(|active|)
      ensures removed == old(heap[index]) && View() == old(View()) - {removed.slot}
    {
      hide AreLinked, FrontierOf;
      removed := heap[index];
      RemovalLeavesHole(heap, index);
      Detach(index);
      if index < |heap| {
        RestoreAt(index);
      }
    }

    /** Writes a new entry over the one of an active slot. */
    method Overwrite(slot: nat, node: U64, time: U64)
      requires Linked() && slot < |active| && active[slot]
      modifies this`heap, this`nextTime
      ensures Linked() && View() == old(View())[slot := (time, node)]
      ensures heap == old(heap)[old(indexSlot[slot]) := Entry(time, node, slot)]
    {
      nextTime := nextTime[slot := time];
      heap := heap[indexSlot[slot] := Entry(time, node, slot)];
    }

    /** Appends the entry of a slot that was not active. */
    method Append(slot: nat, node: U64, time: U64)
      requires Linked() && slot < |active| && !active[slot]
      modifies this
      ensures Linked() && |active| == old(|active|) && View() == old(View())[slot := (time, node)]
      ensures heap == old(heap) + [Entry(time, node, slot)]
    {
      nextTime := nextTime[slot := time];
      active := active[slot := true];
      indexSlot := indexSlot[slot := |heap|];
      heap := heap + [Entry(time, node, slot)];
    }

    /** Records the next event of a slot, or that it has none. */
    method Update(slot: nat, node: U64, next: Option<U64>) returns (ok: bool)
      requires Valid()
      modifies this
      ensures Valid() && |active| == old(|active|)
      ensures ok == (slot < |active|)
      ensures !ok ==> View() == old(View())
      ensures ok && next.Some? ==> View() == old(View())[slot := (next.value, node)]
      ensures ok && next.None? ==> View() == old(View()) - {slot}
    {
      if slot >= |active| {
        return false;
      }
      ok := true;
      match (active[slot], next) {
        case (true, Some(time)) =>
          var index := indexSlot[slot];
          ReplacementIsAround(heap, index, Entry(time, node, slot));
          Overwrite(slot, node, time);
          RestoreAt(index);
        case (true, None) =>
          var removed := RemoveAt(indexSlot[slot]);
        case (false, Some(time)) =>
          AppendIsAround(heap, Entry(time, node, slot));
          Append(slot, node, time);
          SiftUp(|heap| - 1);
        case (false, None) =>
      }
    }

    method PeekMin() returns (least: Option<Entry>)
      requires Valid()
      ensures least.None? <==> View() == map[]
      ensures least.Some? ==> |heap| > 0 && least.value == heap[0] && IsLeastEntry(least.value, View())
    {
      if |heap| == 0 {
        return None;
      }
      least := Some(heap[0]);
      forall s | s in View() && s != heap[0].slot
        ensures Less(heap[0], Entry(View()[s].0, View()[s].1, s))
      {
        RootIsLeast(heap, indexSlot[s]);
      }
      assert heap[0].slot in View();
    }

    /** Takes the least entry, if it lies before the horizon. */
    method PopBefore(horizon: nat) returns (popped: Option<Entry>)
      requires Valid()
      modifies this`heap, this`indexSlot, this`active
      ensures Valid() && |active| == old(|active|)
      ensures popped.None? ==> View() == old(View()) && forall s | s in View() :: horizon <= View()[s].0
      ensures popped.Some? ==>
                && IsLeastEntry(popped.value, old(View())) && popped.value.time < horizon
                && View() == old(View()) - {popped.value.slot}
    {
      var least := PeekMin();
      if least.None? || least.value.time >= horizon {
        return None;
      }
      var removed := RemoveAt(0);
      return Some(removed);
    }
  }

  lemma LowEntryHoldsBelow(heap: seq<Entry>, index: nat)
    requires 0 < index < |heap| && OrderedAround(heap, index) && Less(heap[index], heap[Parent(index)])
    ensures HoldsBelow(heap, index)
  {
  }

  lemma ReplacementIsAround(heap: seq<Entry>, index: nat, e: Entry)
    requires HeapOrdered(heap) && index < |heap|
    ensures OrderedAround(heap[index := e], index)
  {
    var after := heap[index := e];
    forall p | 0 < p < |heap|
      ensures p != index && Parent(p) != index ==> EdgeHolds(after, p)
      ensures Parent(p) == index && 0 < index ==> !Less(after[p], after[Parent(index)])
    {
      assert EdgeHolds(heap, p);
      if 0 < index {
        assert EdgeHolds(heap, index);
      }
    }
  }

  lemma AppendIsAround(heap: seq<Entry>, e: Entry)
    requires HeapOrdered(heap)
    ensures OrderedAround(heap + [e], |heap|) && HoldsBelow(heap + [e], |heap|)
  {
    var after := heap + [e];
    forall p | 0 < p < |after|
      ensures Parent(p) < |heap|
      ensures p < |heap| ==> EdgeHolds(after, p)
    {
      if p < |heap| {
        assert EdgeHolds(heap, p);
      }
    }
  }

  lemma RemovalLeavesHole(heap: seq<Entry>, index: nat)
    requires HeapOrdered(heap) && index < |heap|
    ensures var short := heap[..|heap| - 1];
            if index < |short| then OrderedAround(short[index := heap[|heap| - 1]], index) else HeapOrdered(short)
  {
    var short := heap[..|heap| - 1];
    forall p | 0 < p < |short|
      ensures EdgeHolds(short, p)
    {
      assert EdgeHolds(heap, p);
    }
    if index < |short| {
      ReplacementIsAround(short, index, heap[|heap| - 1]);
    }
  }

  /** `child` is the lesser child of `index`. */
  ghost predicate IsLeastChild(heap: seq<Entry>, index: nat, child: nat) {
    && 0 < child < |heap| && Parent(child) == index
    && forall p | 0 < p < |heap| && Parent(p) == index :: !Less(heap[p], heap[child])
  }

  lemma ChosenChild(heap: seq<Entry>, index: nat, child: nat)
    requires index < |heap| && 2 * index + 1 < |heap|
    requires child == if 2 * index + 2 < |heap| && Less(heap[2 * index + 2], heap[2 * index + 1])
                      then 2 * index + 2 else 2 * index + 1
    ensures IsLeastChild(heap, index, child)
  {
  }

  lemma NoChildLeft(heap: seq<Entry>, index: nat)
    requires index < |heap| <= 2 * index + 1 && OrderedAround(heap, index) && (index > 0 ==> EdgeHolds(heap, index))
    ensures HeapOrdered(heap)
  {
  }

  lemma LeastChildHolds(heap: seq<Entry>, index: nat, child: nat)
    requires index < |heap| && OrderedAround(heap, index) && (index > 0 ==> EdgeHolds(heap, index))
    requires IsLeastChild(heap, index, child) && !Less(heap[child], heap[index])
    ensures HeapOrdered(heap)
  {
  }

  lemma SwapUpKeepsOrder(heap: seq<Entry>, index: nat)
    requires 0 < index < |heap| && OrderedAround(heap, index) && HoldsBelow(heap, index)
    requires Less(heap[index], heap[Parent(index)])
    ensures var after := heap[index := heap[Parent(index)]][Parent(index) := heap[index]];
            OrderedAround(after, Parent(index)) && HoldsBelow(after, Parent(index))
  {
    var parent := Parent(index);
    var after := heap[index := heap[parent]][parent := heap[index]];
    forall p | 0 < p < |heap|
      ensures p != parent && Parent(p) != parent ==> EdgeHolds(after, p)
      ensures Parent(p) == parent ==> EdgeHolds(after, p)
      ensures Parent(p) == parent && parent > 0 ==> !Less(after[p], after[Parent(parent)])
    {
      assert EdgeHolds(heap, p) || p == index;
      if parent > 0 {
        assert EdgeHolds(heap, parent);
      }
    }
  }

  lemma SwapDownKeepsOrder(heap: seq<Entry>, index: nat, child: nat)
    requires index < |heap| && OrderedAround(heap, index) && (index > 0 ==> EdgeHolds(heap, index))
    requires IsLeastChild(heap, index, child) && Less(heap[child], heap[index])
    ensures var after := heap[index := heap[child]][child := heap[index]];
            OrderedAround(after, child) && EdgeHolds(after, child)
  {
    var after := heap[index := heap[child]][child := heap[index]];
    forall p | 0 < p < |heap|
      ensures p != child && Parent(p) != child ==> EdgeHolds(after, p)
      ensures Parent(p) == child ==> !Less(after[p], after[Parent(child)])
    {
      if Parent(p) == child {
        assert EdgeHolds(heap, p);
      } else if Parent(p) != index && p != index {
        assert EdgeHolds(heap, p);
      }
      if p == index {
        assert Parent(child) == index && child != index;
        assert EdgeHolds(heap, child) || !Less(heap[child], heap[Parent(index)]);
      }
    }
  }
}
