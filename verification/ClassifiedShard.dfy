/** The slots of a shard in a classified round: active processes leave them, and come back to them with
what they were sent. */
module ClassifiedShard {
  import opened Events
  import opened LogicalProcess
  import opened FrontierIndex
  import opened RemoteMerge
  import Shard

  /** A process in its slot. */
  datatype Resident = Resident(node: U64, lp: Lp)

  /** A process on its way: where it lives, and what it is. */
  datatype Traveller = Traveller(owner: nat, slot: nat, resident: Resident)

  type Slots = seq<Option<Resident>>

  ghost predicate IsDue(slots: Slots, s: nat, horizon: nat) {
    s < |slots| && slots[s].Some? && Below(slots[s].value.lp.pending, horizon)
  }

  /** The index has exactly the residents with a next event, and the time of that event. */
  ghost predicate Indexes(f: Frontier, slots: Slots) {
    forall s: nat ::
      (s in f <==> s < |slots| && slots[s].Some? && slots[s].value.lp.pending != {}) &&
      (s in f ==> MinTime(slots[s].value.lp.pending) == Some(f[s].0) && f[s].1 == slots[s].value.node)
  }

  ghost predicate AreKeyed(slots: Slots) {
    forall s | 0 <= s < |slots| && slots[s].Some? :: UniqueKeys(slots[s].value.lp.pending)
  }

  /** The slots with every traveller put into its own. */
  function Enter(slots: Slots, travellers: seq<Traveller>): (r: Slots)
    ensures |r| == |slots|
  {
    if travellers == [] then slots
    else
      var r, t := Enter(slots, travellers[..|travellers| - 1]), travellers[|travellers| - 1];
      if t.slot < |r| then r[t.slot := Some(t.resident)] else r
  }

  /** The target of `e` is here. */
  ghost predicate HasHome(placement: Placement, slots: Slots, worker: nat, e: Event) {
    && e.target < |placement| && placement[e.target].worker == worker && placement[e.target].slot < |slots|
    && slots[placement[e.target].slot].Some? && slots[placement[e.target].slot].value.node == e.target
  }

  /** Every event finds its target here, lies at or above the floor and brings a fresh key. */
  ghost predicate TakesIn(placement: Placement, slots: Slots, worker: nat, floor: nat, events: seq<Event>) {
    && (forall k | 0 <= k < |events| ::
          && HasHome(placement, slots, worker, events[k]) && floor <= events[k].key.time
          && !HasKey(slots[placement[events[k].target].slot].value.lp.pending, events[k].key))
    && NoTwins(events)
  }

  /** Every process with the events that came for it. */
  ghost function Delivered(placement: Placement, slots: Slots, events: seq<Event>): (r: Slots)
    ensures |r| == |slots|
  {
    seq(|slots|, s requires 0 <= s < |slots| =>
      if slots[s].None? then None
      else
        var lp := slots[s].value.lp;
        Some(Resident(slots[s].value.node, Lp(lp.state, lp.pending + ForSlot(placement, events, s)))))
  }

  /** What all residents hold. */
  ghost function AllHeld(slots: Slots): set<Event> {
    set s, e | 0 <= s < |slots| && slots[s].Some? && e in slots[s].value.lp.pending :: e
  }

  function AllIn(residents: seq<Resident>): Slots {
    seq(|residents|, s requires 0 <= s < |residents| => Some(residents[s]))
  }

  ghost predicate Comes(travellers: seq<Traveller>, s: nat) { exists i :: 0 <= i < |travellers| && travellers[i].slot == s }

  ghost predicate ApartSlots(travellers: seq<Traveller>) {
    forall i, j | 0 <= i < j < |travellers| :: travellers[i].slot != travellers[j].slot
  }

  /** The travellers left their slots, and everything else stayed. */
  ghost predicate Left(before: Slots, after: Slots, worker: nat, travellers: seq<Traveller>) {
    && |after| == |before| && ApartSlots(travellers)
    && (forall i | 0 <= i < |travellers| ::
          && travellers[i].owner == worker && travellers[i].slot < |before|
          && before[travellers[i].slot] == Some(travellers[i].resident))
    && (forall s | 0 <= s < |before| :: after[s] == if Comes(travellers, s) then None else before[s])
  }

  /** The travellers entered their slots, and everything else stayed. */
  ghost predicate Entered(before: Slots, after: Slots, travellers: seq<Traveller>) {
    && |after| == |before|
    && (forall i | 0 <= i < |travellers| ::
          travellers[i].slot < |after| && after[travellers[i].slot] == Some(travellers[i].resident))
    && (forall s | 0 <= s < |before| && !Comes(travellers, s) :: after[s] == before[s])
  }

  /** The travellers live here, at slots that are free, no two at one. */
  ghost predicate CanEnter(slots: Slots, worker: nat, travellers: seq<Traveller>) {
    && ApartSlots(travellers)
    && forall i | 0 <= i < |travellers| ::
         travellers[i].owner == worker && travellers[i].slot < |slots| && slots[travellers[i].slot].None?
  }

  lemma OneMoreLeft(before: Slots, slots: Slots, worker: nat, travellers: seq<Traveller>, s: nat)
    requires Left(before, slots, worker, travellers) && s < |slots| && slots[s].Some?
    ensures Left(before, slots[s := None], worker, travellers + [Traveller(worker, s, slots[s].value)])
  {
    var more := travellers + [Traveller(worker, s, slots[s].value)];
    assert !Comes(travellers, s);
    forall x: nat
      ensures Comes(more, x) <==> Comes(travellers, x) || x == s
    {
      if x == s {
        assert more[|travellers|].slot == s;
      }
      if Comes(travellers, x) {
        var i :| 0 <= i < |travellers| && travellers[i].slot == x;
        assert more[i].slot == x;
      }
    }
    forall i | 0 <= i < |travellers|
      ensures travellers[i].slot != s
    {
      assert Comes(travellers, travellers[i].slot);
    }
  }

  lemma EnterSnoc(slots: Slots, travellers: seq<Traveller>, n: nat)
    requires n < |travellers| && travellers[n].slot < |slots|
    ensures Enter(slots, travellers[..n + 1]) == Enter(slots, travellers[..n])[travellers[n].slot := Some(travellers[n].resident)]
  {
    assert travellers[..n + 1][..n] == travellers[..n];
  }

  lemma OneMoreEntered(before: Slots, slots: Slots, worker: nat, travellers: seq<Traveller>, n: nat)
    requires n < |travellers| && Entered(before, slots, travellers[..n]) && CanEnter(before, worker, travellers[..n])
    requires travellers[n].slot < |slots|
    ensures slots[travellers[n].slot].None? && travellers[n].owner == worker <==> CanEnter(before, worker, travellers[..n + 1])
    ensures slots[travellers[n].slot].None? ==>
              Entered(before, slots[travellers[n].slot := Some(travellers[n].resident)], travellers[..n + 1])
  {
    var few, more, s := travellers[..n], travellers[..n + 1], travellers[n].slot;
    assert more == few + [travellers[n]];
    forall i | 0 <= i < n
      ensures more[i] == few[i] && Comes(few, few[i].slot)
    {
    }
    if Comes(few, s) {
      var i :| 0 <= i < |few| && few[i].slot == s;
      assert more[i].slot == more[n].slot;
    } else {
      assert more[n].slot == s;
      forall x: nat | Comes(few, x)
        ensures Comes(more, x)
      {
        var i :| 0 <= i < |few| && few[i].slot == x;
        assert more[i].slot == x;
      }
      assert slots[s] == before[s];
    }
  }

  lemma PrefixEnters(slots: Slots, worker: nat, travellers: seq<Traveller>, n: nat)
    requires n <= |travellers| && CanEnter(slots, worker, travellers)
    ensures CanEnter(slots, worker, travellers[..n])
  {
  }

  /** Travellers that can enter are in their slots afterwards. */
  lemma {:induction false} EnterIsEntered(slots: Slots, worker: nat, travellers: seq<Traveller>)
    requires CanEnter(slots, worker, travellers)
    ensures Entered(slots, Enter(slots, travellers), travellers)
  {
    hide CanEnter, Entered;
    if travellers == [] {
      NoneEntered(slots);
    } else {
      var n := |travellers| - 1;
      assert travellers[..n + 1] == travellers;
      PrefixEnters(slots, worker, travellers, n);
      EnterIsEntered(slots, worker, travellers[..n]);
      InRange(slots, worker, travellers, n);
      OneMoreEntered(slots, Enter(slots, travellers[..n]), worker, travellers, n);
    }
  }

  lemma NoneEntered(slots: Slots)
    ensures Entered(slots, slots, [])
  {
  }

  lemma InRange(slots: Slots, worker: nat, travellers: seq<Traveller>, n: nat)
    requires CanEnter(slots, worker, travellers) && n < |travellers|
    ensures travellers[n].slot < |slots|
  {
  }

  lemma DeliveredSnoc(placement: Placement, was: Slots, few: seq<Event>, e: Event)
    requires e.target < |placement| && placement[e.target].slot < |was| && was[placement[e.target].slot].Some?
    ensures var (slots, s) := (Delivered(placement, was, few), placement[e.target].slot);
            && slots[s].Some?
            && Delivered(placement, was, few + [e]) ==
               slots[s := Some(Resident(slots[s].value.node, Lp(slots[s].value.lp.state, slots[s].value.lp.pending + {e})))]
  {
    var slots, s := Delivered(placement, was, few), placement[e.target].slot;
    forall x | 0 <= x < |was| && was[x].Some?
      ensures Delivered(placement, was, few + [e])[x].value.lp.pending ==
              if x == s then slots[x].value.lp.pending + {e} else slots[x].value.lp.pending
    {
      assert ForSlot(placement, few + [e], x) == if x == s then ForSlot(placement, few, x) + {e} else ForSlot(placement, few, x);
    }
  }

  /** One more event goes where it belongs. */
  lemma OneMoreDelivered(placement: Placement, was: Slots, worker: nat, floor: nat, events: seq<Event>, n: nat)
    requires n < |events| && TakesIn(placement, was, worker, floor, events[..n]) && HasHome(placement, was, worker, events[n])
    ensures var (slots, s, e) := (Delivered(placement, was, events[..n]), placement[events[n].target].slot, events[n]);
            && HasHome(placement, slots, worker, e)
            && (TakesIn(placement, was, worker, floor, events[..n + 1]) <==>
                floor <= e.key.time && !HasKey(slots[s].value.lp.pending, e.key))
            && (TakesIn(placement, was, worker, floor, events[..n + 1]) ==>
                  Delivered(placement, was, events[..n + 1]) ==
                  slots[s := Some(Resident(e.target, Lp(slots[s].value.lp.state, slots[s].value.lp.pending + {e})))])
  {
    var few, more, e := events[..n], events[..n + 1], events[n];
    var slots, s := Delivered(placement, was, few), placement[e.target].slot;
    assert more == few + [e];
    TwinInSlot(placement, was, worker, floor, few, e);
    forall k | 0 <= k < n
      ensures more[k] == few[k]
    {
    }
    if floor <= e.key.time && !HasKey(slots[s].value.lp.pending, e.key) {
      NoKeyBefore(was[s].value.lp.pending, slots[s].value.lp.pending, e.key);
      assert NoTwins(more);
      forall k | 0 <= k < |more|
        ensures HasHome(placement, was, worker, more[k]) && floor <= more[k].key.time
        ensures !HasKey(was[placement[more[k].target].slot].value.lp.pending, more[k].key)
      {
        assert k < n ==> HasHome(placement, was, worker, few[k]);
      }
      DeliveredSnoc(placement, was, few, e);
    } else if TakesIn(placement, was, worker, floor, more) {
      assert more[n] == e;
      assert HasKey(slots[s].value.lp.pending, e.key);
      HasTwin(placement, was, few, more, e, s);
    }
  }

  lemma NoKeyBefore(few: set<Event>, more: set<Event>, key: EventKey)
    requires few <= more && !HasKey(more, key)
    ensures !HasKey(few, key)
  {
  }

  /** A key that the delivered slot has, it had or got. */
  lemma HasTwin(placement: Placement, was: Slots, few: seq<Event>, more: seq<Event>, e: Event, s: nat)
    requires s < |was| && was[s].Some? && more == few + [e] && !HasKey(was[s].value.lp.pending, e.key)
    requires forall x | x in ForSlot(placement, few, s) :: x.target == e.target
    requires HasKey(Delivered(placement, was, few)[s].value.lp.pending, e.key)
    ensures !NoTwins(more)
  {
    var x :| x in Delivered(placement, was, few)[s].value.lp.pending && x.key == e.key;
    assert x in ForSlot(placement, few, s);
    var k :| 0 <= k < |few| && few[k] == x;
    assert more[k] == x && more[|few|] == e;
  }

  lemma TwinInSlot(placement: Placement, was: Slots, worker: nat, floor: nat, few: seq<Event>, e: Event)
    requires TakesIn(placement, was, worker, floor, few) && HasHome(placement, was, worker, e)
    ensures var s := placement[e.target].slot;
            && (forall x | x in ForSlot(placement, few, s) :: x.target == e.target)
            && (forall k | 0 <= k < |few| && few[k].target == e.target :: few[k] in ForSlot(placement, few, s))
  {
    var s := placement[e.target].slot;
    forall x | x in ForSlot(placement, few, s)
      ensures x.target == e.target
    {
      var k :| 0 <= k < |few| && few[k] == x;
      assert HasHome(placement, was, worker, few[k]);
    }
  }

  class SlottedShard {
    const worker: nat
    var slots: Slots
    const frontier: OwnerFrontierIndex

    ghost predicate Valid()
      reads this, frontier
    {
      frontier.Valid() && |frontier.active| == |slots| && Indexes(frontier.View(), slots) && AreKeyed(slots)
    }

    /** Indexes every process by its next event. */
    constructor (worker: nat, residents: seq<Resident>)
      requires AreKeyed(AllIn(residents))
      ensures Valid() && this.worker == worker && slots == AllIn(residents) && fresh(frontier)
    {
      hide AreLinked, HeapOrdered, FrontierOf, MinTime, UniqueKeys;
      var index := new OwnerFrontierIndex(|residents|);
      this.worker, this.slots, this.frontier := worker, AllIn(residents), index;
      new;
      for s := 0 to |residents|
        invariant frontier.Valid() && |frontier.active| == |slots| && slots == AllIn(residents) && fresh(frontier)
        invariant Indexes(frontier.View(), AllIn(residents[..s]))
      {
        assert AllIn(residents)[s] == Some(residents[s]);
        var next := NextTime(residents[s].lp);
        var updated := frontier.Update(s, residents[s].node, next);
      }
      assert residents[..|residents|] == residents;
    }

    /** Takes every process with an event below the horizon out of its slot. */
    method Extract(horizon: nat) returns (active: seq<Traveller>)
      requires Valid()
      modifies this`slots, frontier
      ensures Valid() && Left(old(slots), slots, worker, active)
      ensures forall s: nat :: Comes(active, s) <==> IsDue(old(slots), s, horizon)
    {
      hide AreLinked, HeapOrdered, FrontierOf, Left, Indexes, IsDue, Comes, AreKeyed;
      active := [];
      ghost var was := slots;
      NoneLeft(slots, worker);
      while true
        invariant Valid() && Left(was, slots, worker, active)
        invariant forall s: nat | Comes(active, s) :: IsDue(was, s, horizon)
        decreases |frontier.View()|
      {
        ghost var f := frontier.View();
        var popped := frontier.PopBefore(horizon);
        if popped.None? {
          NoneDue(was, slots, worker, active, frontier.View(), horizon);
          return;
        }
        var s := popped.value.slot;
        OneLess(f, s);
        EntryIsDue(f, slots, popped.value, horizon);
        OneMoreLeft(was, slots, worker, active, s);
        OneMoreDue(was, slots, worker, active, s, horizon);
        active, slots := active + [Traveller(worker, s, slots[s].value)], slots[s := None];
      }
    }

    /** Puts a process into a slot and indexes it. */
    method Put(s: nat, resident: Resident)
      requires Valid() && s < |slots| && UniqueKeys(resident.lp.pending)
      modifies this`slots, frontier
      ensures Valid() && slots == old(slots)[s := Some(resident)]
    {
      hide AreLinked, HeapOrdered, FrontierOf, UniqueKeys, MinTime;
      var next := NextTime(resident.lp);
      var updated := frontier.Update(s, resident.node, next);
      slots := slots[s := Some(resident)];
    }

    /** Puts processes back into their slots and indexes them. Fails exactly if one does not live here,
        or its slot is taken. */
    method Restore(travellers: seq<Traveller>) returns (ok: bool)
      requires Valid() && forall i | 0 <= i < |travellers| :: UniqueKeys(travellers[i].resident.lp.pending)
      modifies this`slots, frontier
      ensures ok <==> CanEnter(old(slots), worker, travellers)
      ensures ok ==> Valid() && slots == Enter(old(slots), travellers)
    {
      hide AreLinked, HeapOrdered, FrontierOf, UniqueKeys, Entered, CanEnter, Indexes, AreKeyed;
      ghost var was := slots;
      NoneEntered(slots);
      CanAllEnter(slots, worker, [], 0);
      for n := 0 to |travellers|
        invariant Valid() && slots == Enter(was, travellers[..n])
        invariant Entered(was, slots, travellers[..n]) && CanEnter(was, worker, travellers[..n])
      {
        var t := travellers[n];
        if t.slot >= |slots| {
          CanAllEnter(was, worker, travellers, n);
          return false;
        }
        OneMoreEntered(was, slots, worker, travellers, n);
        EnterSnoc(was, travellers, n);
        if t.owner != worker || slots[t.slot].Some? {
          if CanEnter(was, worker, travellers) {
            PrefixEnters(was, worker, travellers, n + 1);
          }
          return false;
        }
        Put(t.slot, t.resident);
      }
      assert travellers[..|travellers|] == travellers;
      return true;
    }

    /** Merges what was sent here. Fails exactly if an event finds no target, lies below the floor or
        repeats a key. */
    method Merge(inbox: seq<Event>, floor: nat, placement: Placement) returns (ok: bool)
      requires Valid()
      modifies this`slots, frontier
      ensures ok <==> TakesIn(placement, old(slots), worker, floor, inbox)
      ensures ok ==> Valid() && slots == Delivered(placement, old(slots), inbox)
    {
      hide AreLinked, HeapOrdered, FrontierOf, UniqueKeys, TakesIn, Delivered, Indexes, AreKeyed;
      ghost var was := slots;
      NothingDelivered(placement, slots, worker, floor);
      for n := 0 to |inbox|
        invariant Valid() && slots == Delivered(placement, was, inbox[..n])
        invariant TakesIn(placement, was, worker, floor, inbox[..n])
      {
        var e := inbox[n];
        DeliveredHome(placement, was, worker, inbox[..n], e);
        if !(e.target < |placement| && placement[e.target].worker == worker && placement[e.target].slot < |slots| &&
             slots[placement[e.target].slot].Some? && slots[placement[e.target].slot].value.node == e.target) {
          NotTaken(placement, was, worker, floor, inbox, n);
          return false;
        }
        OneMoreDelivered(placement, was, worker, floor, inbox, n);
        var s := placement[e.target].slot;
        var lp := slots[s].value.lp;
        if e.key.time < floor || HasKey(lp.pending, e.key) {
          NotTaken(placement, was, worker, floor, inbox, n);
          return false;
        }
        IsKeyed(slots, s);
        OneMoreKey(lp.pending, e);
        Put(s, Resident(e.target, Lp(lp.state, lp.pending + {e})));
      }
      assert inbox[..|inbox|] == inbox;
      return true;
    }

    /** Ends the worker's part of a classified round: puts its processes back, merges what they were sent
        and finds the least time. Fails exactly if a process cannot enter, an event cannot be taken in, or
        an event below the horizon is left. */
    method RestoreClassifiedRound(travellers: seq<Traveller>, inbox: seq<Event>, horizon: nat, placement: Placement)
      returns (r: Option<Option<U64>>)
      requires Valid() && forall i | 0 <= i < |travellers| :: UniqueKeys(travellers[i].resident.lp.pending)
      modifies this`slots, frontier
      ensures r.Some? <==>
                && CanEnter(old(slots), worker, travellers)
                && TakesIn(placement, Enter(old(slots), travellers), worker, horizon, inbox)
                && !Below(AllHeld(Delivered(placement, Enter(old(slots), travellers), inbox)), horizon)
      ensures r.Some? ==>
                && Valid() && slots == Delivered(placement, Enter(old(slots), travellers), inbox)
                && r.value == MinTime(AllHeld(slots))
    {
      hide AreLinked, HeapOrdered, FrontierOf, UniqueKeys, TakesIn, Delivered, Indexes, AreKeyed, CanEnter, MinTime, AllHeld,
        IsLeastEntry, Below;
      var ok := Restore(travellers);
      if !ok {
        return None;
      }
      ok := Merge(inbox, horizon, placement);
      if !ok {
        return None;
      }
      var least := frontier.PeekMin();
      if least.None? {
        NothingHeld(frontier.View(), slots, horizon);
        return Some(None);
      }
      LeastHeld(frontier.View(), slots, least.value, horizon);
      if least.value.time < horizon {
        return None;
      }
      return Some(Some(least.value.time));
    }
  }

  /** The time of the next event of a process. */
  method NextTime(lp: Lp) returns (next: Option<U64>)
    requires UniqueKeys(lp.pending)
    ensures next == MinTime(lp.pending)
  {
    if lp.pending == {} {
      return None;
    }
    var e := FindLeast(lp.pending);
    LeastHasMinTime(lp.pending);
    return Some(e.key.time);
  }

  lemma CanAllEnter(slots: Slots, worker: nat, travellers: seq<Traveller>, n: nat)
    ensures CanEnter(slots, worker, [])
    ensures n < |travellers| && travellers[n].slot >= |slots| ==> !CanEnter(slots, worker, travellers)
  {
  }

  lemma NothingDelivered(placement: Placement, slots: Slots, worker: nat, floor: nat)
    ensures TakesIn(placement, slots, worker, floor, []) && Delivered(placement, slots, []) == slots
  {
    forall s | 0 <= s < |slots|
      ensures Delivered(placement, slots, [])[s] == slots[s]
    {
      assert ForSlot(placement, [], s) == {};
      if slots[s].Some? {
        assert slots[s].value.lp.pending + {} == slots[s].value.lp.pending;
      }
    }
  }

  lemma DeliveredHome(placement: Placement, was: Slots, worker: nat, events: seq<Event>, e: Event)
    ensures HasHome(placement, Delivered(placement, was, events), worker, e) <==> HasHome(placement, was, worker, e)
  {
  }

  lemma PrefixTaken(placement: Placement, was: Slots, worker: nat, floor: nat, events: seq<Event>, n: nat)
    requires n <= |events| && TakesIn(placement, was, worker, floor, events)
    ensures TakesIn(placement, was, worker, floor, events[..n])
  {
    forall k | 0 <= k < n
      ensures events[..n][k] == events[k]
    {
    }
  }

  /** An event that cannot be taken in after those before it cannot be taken in at all. */
  lemma NotTaken(placement: Placement, was: Slots, worker: nat, floor: nat, events: seq<Event>, n: nat)
    requires n < |events|
    requires !HasHome(placement, was, worker, events[n]) || !TakesIn(placement, was, worker, floor, events[..n + 1])
    ensures !TakesIn(placement, was, worker, floor, events)
  {
    if TakesIn(placement, was, worker, floor, events) {
      PrefixTaken(placement, was, worker, floor, events, n + 1);
    }
  }

  lemma IsKeyed(slots: Slots, s: nat)
    requires AreKeyed(slots) && s < |slots| && slots[s].Some?
    ensures UniqueKeys(slots[s].value.lp.pending)
  {
  }

  lemma OneMoreKey(pending: set<Event>, e: Event)
    requires UniqueKeys(pending) && !HasKey(pending, e.key)
    ensures UniqueKeys(pending + {e})
  {
  }

  lemma NothingHeld(f: Frontier, slots: Slots, horizon: nat)
    requires Indexes(f, slots) && f == map[]
    ensures MinTime(AllHeld(slots)) == None && !Below(AllHeld(slots), horizon)
  {
    forall s | 0 <= s < |slots| && slots[s].Some?
      ensures slots[s].value.lp.pending == {}
    {
      assert s !in f;
    }
    assert AllHeld(slots) == {};
  }

  lemma LeastHeld(f: Frontier, slots: Slots, least: Entry, horizon: nat)
    requires Indexes(f, slots) && IsLeastEntry(least, f)
    ensures MinTime(AllHeld(slots)) == Some(least.time)
    ensures Below(AllHeld(slots), horizon) <==> least.time < horizon
  {
    hide MinTime;
    var all, t := AllHeld(slots), least.time;
    var e := Shard.HasTime(slots[least.slot].value.lp.pending, t);
    assert e in all;
    forall x | x in all
      ensures t <= x.key.time
    {
      var s :| 0 <= s < |slots| && slots[s].Some? && x in slots[s].value.lp.pending;
      assert s in f;
      Shard.MinIsBelow(slots[s].value.lp.pending, x);
    }
    MinTimeIs(all, t);
  }

  lemma NoneLeft(slots: Slots, worker: nat)
    ensures Left(slots, slots, worker, []) && forall s: nat :: !Comes([], s)
  {
  }

  /** The least entry before the horizon is that of a process that is due; it leaves index and slot. */
  lemma EntryIsDue(f: Frontier, slots: Slots, e: Entry, horizon: nat)
    requires Indexes(f, slots) && AreKeyed(slots) && IsLeastEntry(e, f) && e.time < horizon
    ensures IsDue(slots, e.slot, horizon) && e.slot < |slots| && slots[e.slot].Some?
    ensures Indexes(f - {e.slot}, slots[e.slot := None]) && AreKeyed(slots[e.slot := None])
  {
    hide MinTime, UniqueKeys;
    var x := Shard.HasTime(slots[e.slot].value.lp.pending, e.time);
  }

  lemma OneLess(f: Frontier, s: nat)
    requires s in f
    ensures |f - {s}| < |f|
  {
    assert (f - {s}).Keys == f.Keys - {s};
  }

  lemma OneMoreDue(was: Slots, slots: Slots, worker: nat, active: seq<Traveller>, s: nat, horizon: nat)
    requires Left(was, slots, worker, active) && IsDue(slots, s, horizon)
    requires forall x: nat | Comes(active, x) :: IsDue(was, x, horizon)
    ensures forall x: nat | Comes(active + [Traveller(worker, s, slots[s].value)], x) :: IsDue(was, x, horizon)
  {
    var more := active + [Traveller(worker, s, slots[s].value)];
    forall x: nat | Comes(more, x)
      ensures IsDue(was, x, horizon)
    {
      var i :| 0 <= i < |more| && more[i].slot == x;
      if i < |active| {
        assert active[i].slot == x;
        assert Comes(active, x);
      }
    }
  }

  lemma NoneDue(was: Slots, slots: Slots, worker: nat, active: seq<Traveller>, f: Frontier, horizon: nat)
    requires Left(was, slots, worker, active) && Indexes(f, slots) && forall s | s in f :: horizon <= f[s].0
    ensures forall s: nat | IsDue(was, s, horizon) :: Comes(active, s)
  {
    hide MinTime;
    forall s: nat | s < |slots| && slots[s].Some?
      ensures !Below(slots[s].value.lp.pending, horizon)
    {
      Shard.NothingBelowMin(slots[s].value.lp.pending, horizon);
      assert s in f <==> slots[s].value.lp.pending != {};
    }
    assert forall s: nat | s < |slots| && !Comes(active, s) :: slots[s] == was[s];
  }
}
