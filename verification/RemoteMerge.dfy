/** What merging a batch of remote events needs and leaves, whatever order the events come in. */
module RemoteMerge {
  import opened Events
  import opened LogicalProcess
  import opened RadixOrder

  /** Where a process lives. */
  datatype Home = Home(worker: nat, slot: nat)

  /** The home of every node, by node number. */
  type Placement = seq<Home>

  /** The target of `e` is one of the processes of `worker`. */
  predicate Routed(placement: Placement, nodes: seq<U64>, worker: nat, e: Event) {
    && e.target < |placement| && placement[e.target].worker == worker
    && placement[e.target].slot < |nodes| && nodes[placement[e.target].slot] == e.target
  }

  /** No two events have the same target and key. */
  ghost predicate NoTwins(events: seq<Event>) {
    forall i, j | 0 <= i < j < |events| :: !(events[i].target == events[j].target && events[i].key == events[j].key)
  }

  ghost predicate Fits(placement: Placement, nodes: seq<U64>, views: seq<Lp>, worker: nat, floor: nat, e: Event)
    requires |nodes| == |views|
  {
    Routed(placement, nodes, worker, e) && floor <= e.key.time && !HasKey(views[placement[e.target].slot].pending, e.key)
  }

  /** Every event has its place here, lies at or above the floor and brings a fresh key. */
  ghost predicate Admissible(placement: Placement, nodes: seq<U64>, views: seq<Lp>, worker: nat, floor: nat, events: seq<Event>)
    requires |nodes| == |views|
  {
    && (forall e | e in events :: Fits(placement, nodes, views, worker, floor, e))
    && NoTwins(events)
  }

  /** The events for one slot. */
  ghost function ForSlot(placement: Placement, events: seq<Event>, s: nat): set<Event> {
    set e | e in events && e.target < |placement| && placement[e.target].slot == s
  }

  ghost function Inserted(placement: Placement, views: seq<Lp>, events: seq<Event>): (r: seq<Lp>)
    ensures |r| == |views|
  {
    seq(|views|, s requires 0 <= s < |views| => Lp(views[s].state, views[s].pending + ForSlot(placement, events, s)))
  }

  lemma {:induction false} TwinsMember(s: seq<Event>, x: Event, e: Event)
    ensures e in Twins(s, x) <==> e in s && e.target == x.target && e.key == x.key
  {
    if s != [] {
      TwinsMember(s[..|s| - 1], x, e);
      assert s == s[..|s| - 1] + [s[|s| - 1]];
    }
  }

  lemma {:induction false} AtMostOneTwin(s: seq<Event>, x: Event)
    requires NoTwins(s)
    ensures |Twins(s, x)| <= 1
  {
    if s != [] {
      var init, last := s[..|s| - 1], s[|s| - 1];
      AtMostOneTwin(init, x);
      if last.target == x.target && last.key == x.key && Twins(init, x) != [] {
        TwinsMember(init, x, Twins(init, x)[0]);
        assert false;
      }
    }
  }

  lemma {:induction false} TwinsShow(s: seq<Event>)
    requires forall x :: |Twins(s, x)| <= 1
    ensures NoTwins(s)
  {
    if s != [] {
      var init, last := s[..|s| - 1], s[|s| - 1];
      forall x
        ensures |Twins(init, x)| <= 1
      {
        assert |Twins(s, x)| <= 1;
      }
      TwinsShow(init);
      forall i | 0 <= i < |init|
        ensures !(init[i].target == last.target && init[i].key == last.key)
      {
        TwinsMember(init, last, init[i]);
        assert |Twins(s, last)| <= 1;
      }
    }
  }

  /** Sorting does not change what can be merged, nor what it leaves. */
  lemma SortedMergesAlike(placement: Placement, nodes: seq<U64>, views: seq<Lp>, worker: nat, floor: nat,
                          events: seq<Event>, sorted: seq<Event>)
    requires |nodes| == |views| && IsStableSort(sorted, events)
    ensures Admissible(placement, nodes, views, worker, floor, sorted) <==>
            Admissible(placement, nodes, views, worker, floor, events)
    ensures Inserted(placement, views, sorted) == Inserted(placement, views, events)
  {
    hide Twins, Fits;
    assert forall e :: e in sorted <==> e in multiset(sorted);
    assert forall e :: e in events <==> e in multiset(events);
    if NoTwins(sorted) {
      forall x
        ensures |Twins(events, x)| <= 1
      {
        AtMostOneTwin(sorted, x);
      }
      TwinsShow(events);
    }
    if NoTwins(events) {
      forall x
        ensures |Twins(sorted, x)| <= 1
      {
        AtMostOneTwin(events, x);
      }
      TwinsShow(sorted);
    }
    forall s | 0 <= s < |views|
      ensures ForSlot(placement, sorted, s) == ForSlot(placement, events, s)
    {
    }
  }

  /** The first `k` events have been merged. */
  ghost predicate MergedFirst(placement: Placement, nodes: seq<U64>, was: seq<Lp>, worker: nat, floor: nat,
                              events: seq<Event>, k: nat, views: seq<Lp>)
    requires |nodes| == |was| && k <= |events|
  {
    && Admissible(placement, nodes, was, worker, floor, events[..k])
    && views == Inserted(placement, was, events[..k])
  }

  lemma MergedNone(placement: Placement, nodes: seq<U64>, was: seq<Lp>, worker: nat, floor: nat, events: seq<Event>)
    requires |nodes| == |was|
    ensures MergedFirst(placement, nodes, was, worker, floor, events, 0, was)
  {
    forall s | 0 <= s < |was|
      ensures was[s].pending + ForSlot(placement, events[..0], s) == was[s].pending
    {
    }
    assert Inserted(placement, was, events[..0]) == was;
  }

  lemma PrefixIsAdmissible(placement: Placement, nodes: seq<U64>, was: seq<Lp>, worker: nat, floor: nat,
                           events: seq<Event>, k: nat)
    requires |nodes| == |was| && k <= |events| && Admissible(placement, nodes, was, worker, floor, events)
    ensures Admissible(placement, nodes, was, worker, floor, events[..k])
  {
    hide Fits;
  }

  lemma ForSlotNext(placement: Placement, events: seq<Event>, k: nat, s: nat)
    requires k < |events| && events[k].target < |placement|
    ensures ForSlot(placement, events[..k + 1], s) ==
            ForSlot(placement, events[..k], s) + if placement[events[k].target].slot == s then {events[k]} else {}
  {
    assert events[..k + 1] == events[..k] + [events[k]];
  }

  /** A key is taken exactly when the process had it, or an earlier event of the batch brought it. */
  lemma KeyTaken(placement: Placement, nodes: seq<U64>, was: seq<Lp>, worker: nat, floor: nat, events: seq<Event>, k: nat,
                 views: seq<Lp>)
    requires |nodes| == |was| && k < |events| && MergedFirst(placement, nodes, was, worker, floor, events, k, views)
    requires Routed(placement, nodes, worker, events[k])
    ensures var e, slot := events[k], placement[events[k].target].slot;
            HasKey(views[slot].pending, e.key) <==>
            HasKey(was[slot].pending, e.key) ||
            exists i :: 0 <= i < k && events[i].target == e.target && events[i].key == e.key
  {
    var e, slot := events[k], placement[events[k].target].slot;
    var prefix := events[..k];
    if HasKey(views[slot].pending, e.key) {
      var x :| x in views[slot].pending && x.key == e.key;
      if x !in was[slot].pending {
        assert x in ForSlot(placement, prefix, slot);
        var i :| 0 <= i < |prefix| && prefix[i] == x;
        assert Fits(placement, nodes, was, worker, floor, x);
        assert events[i] == x;
      }
    }
    if i :| 0 <= i < k && events[i].target == e.target && events[i].key == e.key {
      assert prefix[i] == events[i];
      assert events[i] in ForSlot(placement, prefix, slot);
    }
  }

  lemma NoTwinsNext(events: seq<Event>, k: nat)
    requires k < |events| && NoTwins(events[..k])
    ensures NoTwins(events[..k + 1]) <==>
            !exists i :: 0 <= i < k && events[i].target == events[k].target && events[i].key == events[k].key
  {
    var longer := events[..k + 1];
    if i :| 0 <= i < k && events[i].target == events[k].target && events[i].key == events[k].key {
      assert longer[i] == events[i] && longer[k] == events[k];
    } else {
      forall i, j | 0 <= i < j < |longer|
        ensures !(longer[i].target == longer[j].target && longer[i].key == longer[j].key)
      {
        if j < k {
          assert events[..k][i] == longer[i] && events[..k][j] == longer[j];
        }
      }
    }
  }

  /** One more event is admissible exactly when it fits its process as it is now. */
  lemma AdmissibleNext(placement: Placement, nodes: seq<U64>, was: seq<Lp>, worker: nat, floor: nat, events: seq<Event>,
                       k: nat, views: seq<Lp>)
    requires |nodes| == |was| && k < |events| && MergedFirst(placement, nodes, was, worker, floor, events, k, views)
    ensures Admissible(placement, nodes, was, worker, floor, events[..k + 1]) <==>
            Fits(placement, nodes, views, worker, floor, events[k])
  {
    var e := events[k];
    assert events[..k + 1] == events[..k] + [e];
    assert e in events[..k + 1];
    NoTwinsNext(events, k);
    if Routed(placement, nodes, worker, e) {
      KeyTaken(placement, nodes, was, worker, floor, events, k, views);
      assert forall x | x in events[..k + 1] :: x in events[..k] || x == e;
    }
  }

  lemma MergedNext(placement: Placement, nodes: seq<U64>, was: seq<Lp>, worker: nat, floor: nat, events: seq<Event>, k: nat,
                   views: seq<Lp>)
    requires |nodes| == |was| && k < |events| && MergedFirst(placement, nodes, was, worker, floor, events, k, views)
    requires Fits(placement, nodes, views, worker, floor, events[k])
    ensures var slot := placement[events[k].target].slot;
            MergedFirst(placement, nodes, was, worker, floor, events, k + 1,
                        views[slot := Lp(views[slot].state, views[slot].pending + {events[k]})])
  {
    hide Fits, Admissible, ForSlot;
    FitsRoutes(placement, nodes, views, worker, floor, events[k]);
    AdmissibleNext(placement, nodes, was, worker, floor, events, k, views);
    var slot := placement[events[k].target].slot;
    var after := views[slot := Lp(views[slot].state, views[slot].pending + {events[k]})];
    forall s | 0 <= s < |was|
      ensures after[s] == Inserted(placement, was, events[..k + 1])[s]
    {
      ForSlotNext(placement, events, k, s);
    }
  }

  lemma FitsRoutes(placement: Placement, nodes: seq<U64>, views: seq<Lp>, worker: nat, floor: nat, e: Event)
    requires |nodes| == |views| && Fits(placement, nodes, views, worker, floor, e)
    ensures e.target < |placement| && placement[e.target].slot < |views|
  {
  }
}
