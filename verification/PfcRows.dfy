/** What goes into a row: the controllers that may hold pause on a link, and the parked queue pairs. */
module PfcRows {
  import opened Basics
  import opened Events
  import opened Bitsets

  /** A switch and the links its ingress monitors control. */
  datatype Switch = Switch(id: U64, controls: set<U64>)

  ghost predicate Controls(switches: seq<Switch>, egress: Option<U64>, x: U64) {
    egress.Some? && exists k :: 0 <= k < |switches| && switches[k].id == x && egress.value in switches[k].controls
  }

  ghost predicate Holds(paused: seq<set<U64>>, x: U64) { exists p :: 0 <= p < |paused| && x in paused[p] }

  /** The controllers of an egress link: the switches that monitor it and whoever holds pause now,
      ascending. So every holder has a place in the row. */
  method LinkControllers(switches: seq<Switch>, egress: Option<U64>, paused: seq<set<U64>>) returns (controllers: seq<U64>)
    ensures Ascending(controllers) && Distinct(controllers)
    ensures forall x :: x in controllers <==> Controls(switches, egress, x) || Holds(paused, x)
  {
    var members: set<U64> := {};
    if egress.Some? {
      for k := 0 to |switches|
        invariant forall x :: x in members <==>
                    exists i :: 0 <= i < k && switches[i].id == x && egress.value in switches[i].controls
      {
        if egress.value in switches[k].controls {
          members := members + {switches[k].id};
        }
      }
    }
    ghost var monitors := members;
    for p := 0 to |paused|
      invariant forall x :: x in members <==> x in monitors || exists i :: 0 <= i < p && x in paused[i]
    {
      members := members + paused[p];
    }
    var sorted := Sorted(members);
    assert forall i | 0 <= i < |sorted| :: sorted[i] in sorted;
    controllers := sorted;
  }

  /** The slot of the generator at `position` in the list of queue pairs. */
  function SlotOf(isPair: seq<bool>, position: nat): nat
    requires position <= |isPair|
  {
    if position == 0 then 0 else SlotOf(isPair, position - 1) + if isPair[position - 1] then 1 else 0
  }

  /** Slots tell queue pairs apart. */
  lemma {:induction false} SlotsGrow(isPair: seq<bool>, a: nat, b: nat)
    requires a < b <= |isPair|
    ensures SlotOf(isPair, a) <= SlotOf(isPair, b)
    ensures isPair[a] ==> SlotOf(isPair, a) < SlotOf(isPair, b)
    decreases b
  {
    if a < b - 1 {
      SlotsGrow(isPair, a, b - 1);
    }
  }

  predicate IsPair(isPair: seq<bool>, position: nat) { position < |isPair| && isPair[position] }

  /** Slot `s` is that of a parked position before `n`. */
  ghost predicate ParkedBefore(isPair: seq<bool>, parked: set<nat>, n: nat, s: nat) {
    exists position: nat :: position < n && IsPair(isPair, position) && position in parked && SlotOf(isPair, position) == s
  }

  ghost predicate Mapped(isPair: seq<bool>, parked: set<nat>, n: nat, slots: set<U64>, left: set<nat>) {
    && (forall s: U64 :: s in slots <==> ParkedBefore(isPair, parked, n, s))
    && (forall x :: x in left <==> x in parked && !(x < n && IsPair(isPair, x)))
  }

  /** Maps the parked positions of one class to slots. Fails exactly if one is not a queue pair. */
  method ParkedSlots(isPair: seq<bool>, parked: set<nat>) returns (slots: Option<set<U64>>)
    requires |isPair| <= U64_MAX
    ensures slots.Some? <==> forall x | x in parked :: IsPair(isPair, x)
    ensures slots.Some? ==>
              && (forall s: U64 :: s in slots.value <==> ParkedBefore(isPair, parked, |isPair|, s))
              && (forall s | s in slots.value :: s < SlotOf(isPair, |isPair|))
  {
    var found: set<U64>, left, slot: nat := {}, parked, 0;
    for n: nat := 0 to |isPair|
      invariant slot == SlotOf(isPair, n) <= n && Mapped(isPair, parked, n, found, left)
    {
      MappedNext(isPair, parked, n, found, left);
      if isPair[n] {
        if n in left {
          found, left := found + {slot}, left - {n};
        }
        slot := slot + 1;
      }
    }
    forall s | s in found
      ensures s < SlotOf(isPair, |isPair|)
    {
      assert ParkedBefore(isPair, parked, |isPair|, s);
      var position: nat :| position < |isPair| && IsPair(isPair, position) && SlotOf(isPair, position) == s;
      SlotsGrow(isPair, position, |isPair|);
    }
    slots := if left == {} then Some(found) else None;
    assert left != {} ==> exists x :: x in left;
  }

  lemma MappedNext(isPair: seq<bool>, parked: set<nat>, n: nat, found: set<U64>, left: set<nat>)
    requires n < |isPair| <= U64_MAX && SlotOf(isPair, n) <= n && Mapped(isPair, parked, n, found, left)
    ensures var slot: U64 := SlotOf(isPair, n);
            if isPair[n] && n in left then Mapped(isPair, parked, n + 1, found + {slot}, left - {n})
            else Mapped(isPair, parked, n + 1, found, left)
  {
    hide SlotOf;
    var next := n + 1;
    forall s: nat
      ensures ParkedBefore(isPair, parked, next, s) <==>
              ParkedBefore(isPair, parked, n, s) || (isPair[n] && n in parked && s == SlotOf(isPair, n))
    {
      if isPair[n] && n in parked && s == SlotOf(isPair, n) {
        assert IsPair(isPair, n);
      }
    }
  }
}
