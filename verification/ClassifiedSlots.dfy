/** The slots, lists and lists of lists of a classified worker do what its steps in the pool do. */
module ClassifiedSlots {
  import opened Events
  import opened LogicalProcess
  import opened RemoteMerge
  import opened ClassifiedRound
  import opened ClassifiedPool
  import opened ClassifiedShard
  import Classified
  import Pool = PoolState
  import ShardSteps

  ghost predicate Placed(c: Setup, placement: Placement) { ShardSteps.Placed(c.pool.owner, placement) }

  function InSlot(i: U64, lp: Option<Lp>): Option<Resident> { if lp.None? then None else Some(Resident(i, lp.value)) }

  /** The shard of worker `w` has a slot for each of its processes, and holds those that are home. */
  ghost predicate Shows(c: Setup, placement: Placement, lps: seq<Option<Lp>>, slots: Slots, w: nat)
    requires ValidSetup(c) && Placed(c, placement) && |lps| == |c.pool.owner|
  {
    && (forall i | 0 <= i < |lps| && c.pool.owner[i] == w ::
          placement[i].slot < |slots| && slots[placement[i].slot] == InSlot(i, lps[i]))
    && (forall s | 0 <= s < |slots| :: HasOne(c, placement, s, w))
  }

  ghost predicate HasOne(c: Setup, placement: Placement, s: nat, w: nat)
    requires Placed(c, placement)
  {
    exists i :: 0 <= i < |placement| && c.pool.owner[i] == w && placement[i].slot == s
  }

  /** The list has each process of the map once, with its home. */
  ghost predicate Lists(c: Setup, placement: Placement, travellers: seq<Traveller>, m: map<nat, Lp>, w: nat)
    requires Placed(c, placement)
  {
    && ApartSlots(travellers)
    && (forall k | 0 <= k < |travellers| :: IsListed(c, placement, travellers[k], m, w))
    && (forall i | i in m :: i < |placement| && Comes(travellers, placement[i].slot) && c.pool.owner[i] == w)
  }

  ghost predicate IsListed(c: Setup, placement: Placement, t: Traveller, m: map<nat, Lp>, w: nat)
    requires Placed(c, placement)
  {
    var i := t.resident.node;
    i in m && i < |placement| && c.pool.owner[i] == w && t == Traveller(w, placement[i].slot, Resident(i, m[i]))
  }

  lemma DueIsLeaving(c: Setup, s: Crew, w: nat, placement: Placement, slots: Slots, i: nat)
    requires ValidSetup(c) && Shaped(c, s) && Placed(c, placement) && Shows(c, placement, s.lps, slots, w)
    requires i < |s.lps| && c.pool.owner[i] == w
    ensures IsDue(slots, placement[i].slot, s.horizon) <==> Leaves(c, s, w, i)
  {
  }

  /** Taking the due processes out of the slots is the worker's first step of a round. */
  lemma ExtractIsStep(c: Setup, s: Crew, w: nat, placement: Placement, before: Slots, after: Slots, active: seq<Traveller>)
    requires ValidSetup(c) && Shaped(c, s) && w < c.pool.workers && Placed(c, placement)
    requires Shows(c, placement, s.lps, before, w)
    requires Left(before, after, w, active) && forall x: nat :: Comes(active, x) <==> IsDue(before, x, s.horizon)
    ensures Shows(c, placement, Extract(c, s, w).lps, after, w)
    ensures Lists(c, placement, active, Extract(c, s, w).locals[w].active, w)
  {
    hide IsDue, Leaves, Comes, HasOne;
    var r := Extract(c, s, w);
    forall i | 0 <= i < |s.lps| && c.pool.owner[i] == w
      ensures Comes(active, placement[i].slot) <==> Leaves(c, s, w, i)
    {
      DueIsLeaving(c, s, w, placement, before, i);
    }
    forall k | 0 <= k < |active|
      ensures IsListed(c, placement, active[k], r.locals[w].active, w)
    {
      ActiveIsListed(c, s, w, placement, before, after, active, k);
    }
    forall i | i in r.locals[w].active
      ensures i < |placement| && Comes(active, placement[i].slot) && c.pool.owner[i] == w
    {
      LeaverIsOwn(c, s, w, i);
    }
  }

  lemma LeaverIsOwn(c: Setup, s: Crew, w: nat, i: nat)
    requires Shaped(c, s) && Leaves(c, s, w, i)
    ensures i < |s.lps| && c.pool.owner[i] == w && s.lps[i].Some?
  {
  }

  lemma ActiveIsListed(c: Setup, s: Crew, w: nat, placement: Placement, before: Slots, after: Slots, active: seq<Traveller>, k: nat)
    requires ValidSetup(c) && Shaped(c, s) && w < c.pool.workers && Placed(c, placement)
    requires Shows(c, placement, s.lps, before, w) && k < |active|
    requires Left(before, after, w, active) && forall x: nat :: Comes(active, x) <==> IsDue(before, x, s.horizon)
    ensures IsListed(c, placement, active[k], Extract(c, s, w).locals[w].active, w)
  {
    hide IsDue, Leaves;
    var x := active[k].slot;
    assert Comes(active, x);
    assert HasOne(c, placement, x, w);
    var i :| 0 <= i < |placement| && c.pool.owner[i] == w && placement[i].slot == x;
    DueIsLeaving(c, s, w, placement, before, i);
  }

  /** Whoever came home fits into the slots, and then each slot holds its own process. */
  lemma EnterIsRestored(c: Setup, s: Crew, w: nat, placement: Placement, slots: Slots, travellers: seq<Traveller>, back: map<nat, Lp>)
    requires ValidSetup(c) && Shaped(c, s) && Placed(c, placement) && Shows(c, placement, s.lps, slots, w)
    requires Lists(c, placement, travellers, back, w) && CanRestore(c, s, w, back)
    ensures CanEnter(slots, w, travellers)
    ensures forall i | 0 <= i < |s.lps| && c.pool.owner[i] == w ::
              Enter(slots, travellers)[placement[i].slot] == Some(Resident(i, Restored(c, s, w, back)[i]))
  {
    hide HasOne;
    forall k | 0 <= k < |travellers|
      ensures travellers[k].owner == w && travellers[k].slot < |slots| && slots[travellers[k].slot].None?
    {
      assert IsListed(c, placement, travellers[k], back, w);
    }
    EnterIsEntered(slots, w, travellers);
    forall i | 0 <= i < |s.lps| && c.pool.owner[i] == w
      ensures Enter(slots, travellers)[placement[i].slot] == Some(Resident(i, Restored(c, s, w, back)[i]))
    {
      EachIsRestored(c, s, w, placement, slots, travellers, back, i);
    }
  }

  lemma EachIsRestored(c: Setup, s: Crew, w: nat, placement: Placement, slots: Slots, travellers: seq<Traveller>,
                       back: map<nat, Lp>, i: nat)
    requires ValidSetup(c) && Shaped(c, s) && Placed(c, placement) && Shows(c, placement, s.lps, slots, w)
    requires Lists(c, placement, travellers, back, w) && CanRestore(c, s, w, back)
    requires Entered(slots, Enter(slots, travellers), travellers) && i < |s.lps| && c.pool.owner[i] == w
    ensures Enter(slots, travellers)[placement[i].slot] == Some(Resident(i, Restored(c, s, w, back)[i]))
  {
    hide HasOne, Enter;
    var x := placement[i].slot;
    if Comes(travellers, x) {
      var k :| 0 <= k < |travellers| && travellers[k].slot == x;
      assert IsListed(c, placement, travellers[k], back, w);
      assert travellers[k].resident.node == i;
    }
  }

  /** The full slots of worker `w`. */
  ghost predicate ShowsAll(c: Setup, placement: Placement, lps: seq<Lp>, slots: Slots, w: nat)
    requires ValidSetup(c) && Placed(c, placement) && |lps| == |c.pool.owner|
  {
    && (forall i | 0 <= i < |lps| && c.pool.owner[i] == w ::
          placement[i].slot < |slots| && slots[placement[i].slot] == Some(Resident(i, lps[i])))
    && (forall s | 0 <= s < |slots| :: HasOne(c, placement, s, w))
  }

  /** The slots take in a list of events exactly if the worker's processes can merge them. */
  lemma TakesIsMergeable(c: Setup, placement: Placement, lps: seq<Lp>, slots: Slots, w: nat, floor: nat, inbox: seq<Event>)
    requires ValidSetup(c) && Placed(c, placement) && |lps| == |c.pool.owner| && ShowsAll(c, placement, lps, slots, w)
    requires ShardSteps.NoRepeats(inbox) && forall i | 0 <= i < |lps| && c.pool.owner[i] == w :: UniqueKeys(lps[i].pending)
    ensures TakesIn(placement, slots, w, floor, inbox) <==> Pool.Mergeable(c.pool.owner, lps, w, Elements(inbox), floor)
  {
    hide HasOne, UniqueKeys;
    if TakesIn(placement, slots, w, floor, inbox) {
      TakenIsMergeable(c, placement, lps, slots, w, floor, inbox);
    }
    if Pool.Mergeable(c.pool.owner, lps, w, Elements(inbox), floor) {
      MergeableIsTaken(c, placement, lps, slots, w, floor, inbox);
    }
  }

  lemma TakenIsMergeable(c: Setup, placement: Placement, lps: seq<Lp>, slots: Slots, w: nat, floor: nat, inbox: seq<Event>)
    requires ValidSetup(c) && Placed(c, placement) && |lps| == |c.pool.owner| && ShowsAll(c, placement, lps, slots, w)
    requires TakesIn(placement, slots, w, floor, inbox)
    requires forall i | 0 <= i < |lps| && c.pool.owner[i] == w :: UniqueKeys(lps[i].pending)
    ensures Pool.Mergeable(c.pool.owner, lps, w, Elements(inbox), floor)
  {
    hide HasOne;
    forall e | e in inbox
      ensures e.target < |lps| && c.pool.owner[e.target] == w && floor <= e.key.time && !HasKey(lps[e.target].pending, e.key)
    {
      var k :| 0 <= k < |inbox| && inbox[k] == e;
      assert HasHome(placement, slots, w, inbox[k]);
    }
    ShardSteps.TwinsAreSame(inbox);
    forall i | 0 <= i < |lps| && c.pool.owner[i] == w
      ensures UniqueKeys(lps[i].pending + Pool.To(Elements(inbox), i)) && lps[i].pending !! Pool.To(Elements(inbox), i)
    {
      ShardSteps.FreshKeys(lps[i].pending, Pool.To(Elements(inbox), i));
    }
  }

  lemma MergeableIsTaken(c: Setup, placement: Placement, lps: seq<Lp>, slots: Slots, w: nat, floor: nat, inbox: seq<Event>)
    requires ValidSetup(c) && Placed(c, placement) && |lps| == |c.pool.owner| && ShowsAll(c, placement, lps, slots, w)
    requires ShardSteps.NoRepeats(inbox) && Pool.Mergeable(c.pool.owner, lps, w, Elements(inbox), floor)
    ensures TakesIn(placement, slots, w, floor, inbox)
  {
    hide HasOne, UniqueKeys;
    forall k | 0 <= k < |inbox|
      ensures HasHome(placement, slots, w, inbox[k]) && floor <= inbox[k].key.time
      ensures !HasKey(lps[inbox[k].target].pending, inbox[k].key)
    {
      var e := inbox[k];
      assert e in Elements(inbox) && e in Pool.To(Elements(inbox), e.target);
      ShardSteps.KeyIsFresh(lps[e.target].pending, Pool.To(Elements(inbox), e.target), e);
    }
    ShardSteps.NoTwinsHere(c.pool.owner, lps, w, floor, inbox);
  }

  /** What the slots hold after the merge is what the worker's processes hold. */
  lemma DeliveredIsMerged(c: Setup, placement: Placement, lps: seq<Lp>, slots: Slots, w: nat, inbox: seq<Event>)
    requires ValidSetup(c) && Placed(c, placement) && |lps| == |c.pool.owner| && ShowsAll(c, placement, lps, slots, w)
    requires forall e | e in inbox :: e.target < |lps| && c.pool.owner[e.target] == w
    ensures ShowsAll(c, placement, Pool.MergeInto(lps, Elements(inbox)), Delivered(placement, slots, inbox), w)
    ensures AllHeld(Delivered(placement, slots, inbox)) ==
            Pool.OwnPending(c.pool.owner, Pool.MergeInto(lps, Elements(inbox)), w)
  {
    hide HasOne;
    forall i | 0 <= i < |lps| && c.pool.owner[i] == w
      ensures ForSlot(placement, inbox, placement[i].slot) == Pool.To(Elements(inbox), i)
    {
    }
    var merged, done := Pool.MergeInto(lps, Elements(inbox)), Delivered(placement, slots, inbox);
    assert ShowsAll(c, placement, merged, done, w);
    HeldIsOwn(c, placement, merged, done, w);
  }

  lemma HeldIsOwn(c: Setup, placement: Placement, lps: seq<Lp>, slots: Slots, w: nat)
    requires ValidSetup(c) && Placed(c, placement) && |lps| == |c.pool.owner| && ShowsAll(c, placement, lps, slots, w)
    ensures AllHeld(slots) == Pool.OwnPending(c.pool.owner, lps, w)
  {
    forall e
      ensures e in AllHeld(slots) <==> e in Pool.OwnPending(c.pool.owner, lps, w)
    {
      if e in AllHeld(slots) {
        var s :| 0 <= s < |slots| && slots[s].Some? && e in slots[s].value.lp.pending;
        assert HasOne(c, placement, s, w);
      }
      if e in Pool.OwnPending(c.pool.owner, lps, w) {
        var i :| 0 <= i < |lps| && c.pool.owner[i] == w && e in lps[i].pending;
        assert slots[placement[i].slot].Some?;
      }
    }
  }

  /** Restoring the processes that came home, merging what was sent and finding the least time is the
      worker's last step of a round: it succeeds when the step does, and leaves the same processes and
      the same least time. */
  lemma RestoreIsStep(c: Setup, s: Crew, w: nat, placement: Placement, slots: Slots, travellers: seq<Traveller>,
                      inbox: seq<Event>, local: Local)
    requires ValidSetup(c) && Shaped(c, s) && w < c.pool.workers && Placed(c, placement) && s.status.Running?
    requires Shows(c, placement, s.lps, slots, w) && Lists(c, placement, travellers, local.back, w)
    requires ShardSteps.NoRepeats(inbox) && Elements(inbox) == local.inbox && !local.twice && s.peers[w].round < U64_MAX
    requires CanRestore(c, s, w, local.back)
    requires forall i | 0 <= i < |s.lps| && c.pool.owner[i] == w :: UniqueKeys(Restored(c, s, w, local.back)[i].pending)
    ensures CanEnter(slots, w, travellers)
    ensures var full := Enter(slots, travellers);
            var done := Delivered(placement, full, inbox);
            var r := Finish(c, s, w, local);
            && (r.status.Running? <==> TakesIn(placement, full, w, s.horizon, inbox) && !Below(AllHeld(done), s.horizon))
            && (r.status.Running? ==> Shows(c, placement, r.lps, done, w) && r.minima[w] == MinTime(AllHeld(done)))
  {
    hide HasOne, TakesIn, Delivered, Pool.Mergeable, Pool.MergeInto, AllHeld, Pool.OwnPending, MinTime, UniqueKeys, Lists, CanEnter;
    EnterIsRestored(c, s, w, placement, slots, travellers, local.back);
    var restored, full := Restored(c, s, w, local.back), Enter(slots, travellers);
    assert ShowsAll(c, placement, restored, full, w);
    TakesIsMergeable(c, placement, restored, full, w, s.horizon, inbox);
    if Pool.Mergeable(c.pool.owner, restored, w, local.inbox, s.horizon) {
      KnowsTargets(c.pool.owner, restored, w, inbox, s.horizon);
      DeliveredIsMerged(c, placement, restored, full, w, inbox);
      BelowIsMin(AllHeld(Delivered(placement, full, inbox)), s.horizon);
    }
  }

  lemma KnowsTargets(owner: seq<nat>, lps: seq<Lp>, w: nat, inbox: seq<Event>, floor: nat)
    requires |lps| == |owner| && Pool.Mergeable(owner, lps, w, Elements(inbox), floor)
    ensures forall e | e in inbox :: e.target < |lps| && owner[e.target] == w
  {
    assert forall e | e in inbox :: e in Elements(inbox);
  }

  lemma BelowIsMin(events: set<Event>, horizon: nat)
    ensures Below(events, horizon) <==> MinTime(events).Some? && MinTime(events).value < horizon
  {
  }

  ghost predicate IsItem(c: Setup, local: Local, horizon: nat, item: Classified.Item) {
    && item.node in local.active && item.node < |c.pool.owner|
    && item == Classified.Item(item.node, c.pool.owner[item.node], IsStraggler(c, local.active[item.node], horizon))
  }

  /** The list has the processes that a worker took out, and where each goes. */
  ghost predicate AreItems(c: Setup, local: Local, horizon: nat, items: seq<Classified.Item>, route: seq<nat>)
    requires ValidSetup(c) && Routes(c, local, horizon)
  {
    && |items| == |route|
    && (forall k | 0 <= k < |items| ::
          && IsItem(c, local, horizon, items[k])
          && route[k] == Destination(c, local.any, items[k].node, local.active[items[k].node], horizon))
    && (forall i | i in local.active :: exists k :: 0 <= k < |items| && items[k].node == i)
  }

  /** Sorting that list by worker gives each worker the processes that the message to it carries. */
  lemma SortedIsWork(c: Setup, local: Local, horizon: nat, items: seq<Classified.Item>, route: seq<nat>, x: nat, i: nat)
    requires ValidSetup(c) && Routes(c, local, horizon) && AreItems(c, local, horizon, items, route)
    ensures i in Content(c, local, horizon, 1, x).items <==>
            exists item :: item in Classified.RoutedTo(items, route, x) && item.node == i
  {
    hide Destination, IsStraggler;
    if i in Content(c, local, horizon, 1, x).items {
      var k :| 0 <= k < |items| && items[k].node == i;
      Classified.RoutedMember(items, route, x, items[k]);
    }
    if item :| item in Classified.RoutedTo(items, route, x) && item.node == i {
      Classified.RoutedMember(items, route, x, item);
    }
  }
}
