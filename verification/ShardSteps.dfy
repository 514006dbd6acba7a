/** A shard drains and merges as its worker's steps in the pool do. */
module ShardSteps {
  import opened Events
  import opened LogicalProcess
  import Rounds
  import opened RemoteMerge
  import opened Shard
  import Pool = PoolState

  /** Every process lives at its owner, no two in one slot. */
  ghost predicate Placed(owner: seq<nat>, placement: Placement) {
    && |placement| == |owner|
    && (forall i | 0 <= i < |placement| :: placement[i].worker == owner[i])
    && (forall i, j | 0 <= i < j < |placement| && placement[i].worker == placement[j].worker :: placement[i].slot != placement[j].slot)
  }

  ghost predicate NoRepeats(events: seq<Event>) { forall i, j | 0 <= i < j < |events| :: events[i] != events[j] }

  /** The shard of worker `w` has its processes, each in its slot, and no others. */
  ghost predicate Shows(owner: seq<nat>, placement: Placement, lps: seq<Lp>, nodes: seq<U64>, views: seq<Lp>, w: nat)
    requires Placed(owner, placement) && |lps| == |owner|
  {
    && |nodes| == |views|
    && (forall i | 0 <= i < |lps| && owner[i] == w ::
          placement[i].slot < |nodes| && nodes[placement[i].slot] == i && views[placement[i].slot] == lps[i])
    && (forall s | 0 <= s < |nodes| :: nodes[s] < |owner| && owner[nodes[s]] == w && placement[nodes[s]].slot == s)
  }

  /** The shard drains exactly if the worker's step does. */
  lemma DrainsIsDrainable(u: Pool.Setup, placement: Placement, lps: seq<Lp>, nodes: seq<U64>, views: seq<Lp>, w: nat, horizon: nat)
    requires Pool.ValidSetup(u) && |lps| == |u.owner| && Placed(u.owner, placement) && Shows(u.owner, placement, lps, nodes, views, w)
    ensures Drains(u.m, nodes, views, horizon, u.plan.capacity, |placement|) <==> Pool.Drainable(u, lps, w, horizon)
  {
    hide DrainLp, UniqueKeys;
    if Drains(u.m, nodes, views, horizon, u.plan.capacity, |placement|) {
      forall i | 0 <= i < |lps| && u.owner[i] == w
        ensures Goes(u.m, i, lps[i], horizon, u.plan.capacity, |placement|)
      {
        assert Goes(u.m, nodes[placement[i].slot], views[placement[i].slot], horizon, u.plan.capacity, |placement|);
      }
    }
    if Pool.Drainable(u, lps, w, horizon) {
      forall s | 0 <= s < |views|
        ensures Goes(u.m, nodes[s], views[s], horizon, u.plan.capacity, |placement|)
      {
        assert lps[nodes[s]] == views[s];
      }
    }
  }

  /** After its drains the shard holds, sends and reports what the worker's step in the pool does. */
  lemma DrainIsStep(u: Pool.Setup, placement: Placement, lps: seq<Lp>, nodes: seq<U64>, views: seq<Lp>, after: seq<Lp>, w: nat,
                    horizon: nat, record: Rounds.Round)
    requires Pool.ValidSetup(u) && |lps| == |record| == |u.owner| && Placed(u.owner, placement)
    requires Shows(u.owner, placement, lps, nodes, views, w) && Pool.Drainable(u, lps, w, horizon) && |after| == |views|
    requires forall s | 0 <= s < |views| ::
               UniqueKeys(views[s].pending) && after[s] == After(u.m, nodes[s], views[s], horizon, u.plan.capacity)
    ensures var now := Pool.DrainOwn(u, lps, w, horizon, record);
            var settled := Pool.Settled(u.owner, lps, now, w);
            && Shows(u.owner, placement, settled, nodes, after, w)
            && AllPending(after) == Pool.OwnPending(u.owner, settled, w)
            && forall o :: AllSentTo(u.m, nodes, views, horizon, u.plan.capacity, placement, o) == Pool.Sent(u.owner, now, w, o)
  {
    hide DrainLp, UniqueKeys;
    var now := Pool.DrainOwn(u, lps, w, horizon, record);
    var settled := Pool.Settled(u.owner, lps, now, w);
    assert Shows(u.owner, placement, settled, nodes, after, w);
    HeldIsOwn(u.owner, placement, settled, nodes, after, w);
    forall o
      ensures AllSentTo(u.m, nodes, views, horizon, u.plan.capacity, placement, o) == Pool.Sent(u.owner, now, w, o)
    {
      SentIsStep(u, placement, lps, nodes, views, w, horizon, record, o);
    }
  }

  lemma SentIsStep(u: Pool.Setup, placement: Placement, lps: seq<Lp>, nodes: seq<U64>, views: seq<Lp>, w: nat, horizon: nat,
                   record: Rounds.Round, o: nat)
    requires Pool.ValidSetup(u) && |lps| == |record| == |u.owner| && Placed(u.owner, placement)
    requires Shows(u.owner, placement, lps, nodes, views, w) && Pool.Drainable(u, lps, w, horizon)
    requires forall s | 0 <= s < |views| :: UniqueKeys(views[s].pending)
    ensures AllSentTo(u.m, nodes, views, horizon, u.plan.capacity, placement, o) ==
            Pool.Sent(u.owner, Pool.DrainOwn(u, lps, w, horizon, record), w, o)
  {
    hide DrainLp, UniqueKeys;
    var now := Pool.DrainOwn(u, lps, w, horizon, record);
    forall e
      ensures e in AllSentTo(u.m, nodes, views, horizon, u.plan.capacity, placement, o) <==> e in Pool.Sent(u.owner, now, w, o)
    {
      if e in AllSentTo(u.m, nodes, views, horizon, u.plan.capacity, placement, o) {
        var s :| 0 <= s < |views| && e in SentTo(u.m, nodes[s], views[s], horizon, u.plan.capacity, placement, o);
        assert e in now[nodes[s]].outbox;
      }
      if e in Pool.Sent(u.owner, now, w, o) {
        var j :| 0 <= j < |now| && u.owner[j] == w && e in now[j].outbox && e.target < |u.owner| && u.owner[e.target] == o;
        var s := placement[j].slot;
        assert e in SentTo(u.m, nodes[s], views[s], horizon, u.plan.capacity, placement, o);
      }
    }
  }

  lemma HeldIsOwn(owner: seq<nat>, placement: Placement, lps: seq<Lp>, nodes: seq<U64>, views: seq<Lp>, w: nat)
    requires Placed(owner, placement) && |lps| == |owner| && Shows(owner, placement, lps, nodes, views, w)
    ensures AllPending(views) == Pool.OwnPending(owner, lps, w)
  {
    forall e
      ensures e in AllPending(views) <==> e in Pool.OwnPending(owner, lps, w)
    {
      if e in AllPending(views) {
        var s :| 0 <= s < |views| && e in views[s].pending;
        assert e in lps[nodes[s]].pending;
      }
      if e in Pool.OwnPending(owner, lps, w) {
        var i :| 0 <= i < |lps| && owner[i] == w && e in lps[i].pending;
        assert e in views[placement[i].slot].pending;
      }
    }
  }

  /** The shard merges a list of events exactly if the worker's step merges the batch, with the same result. */
  lemma MergeIsStep(owner: seq<nat>, placement: Placement, lps: seq<Lp>, nodes: seq<U64>, views: seq<Lp>, w: nat, floor: nat,
                    inbox: seq<Event>)
    requires Placed(owner, placement) && |lps| == |owner| && Shows(owner, placement, lps, nodes, views, w)
    requires NoRepeats(inbox) && forall i | 0 <= i < |lps| && owner[i] == w :: UniqueKeys(lps[i].pending)
    ensures Admissible(placement, nodes, views, w, floor, inbox) <==> Pool.Mergeable(owner, lps, w, Elements(inbox), floor)
    ensures Admissible(placement, nodes, views, w, floor, inbox) ==>
              Shows(owner, placement, Pool.MergeInto(lps, Elements(inbox)), nodes, Inserted(placement, views, inbox), w)
  {
    hide UniqueKeys;
    if Admissible(placement, nodes, views, w, floor, inbox) {
      AdmissibleIsMergeable(owner, placement, lps, nodes, views, w, floor, inbox);
      forall i | 0 <= i < |lps| && owner[i] == w
        ensures ForSlot(placement, inbox, placement[i].slot) == Pool.To(Elements(inbox), i)
      {
      }
    }
    if Pool.Mergeable(owner, lps, w, Elements(inbox), floor) {
      MergeableIsAdmissible(owner, placement, lps, nodes, views, w, floor, inbox);
    }
  }

  lemma AdmissibleIsMergeable(owner: seq<nat>, placement: Placement, lps: seq<Lp>, nodes: seq<U64>, views: seq<Lp>, w: nat,
                              floor: nat, inbox: seq<Event>)
    requires Placed(owner, placement) && |lps| == |owner| && Shows(owner, placement, lps, nodes, views, w)
    requires forall i | 0 <= i < |lps| && owner[i] == w :: UniqueKeys(lps[i].pending)
    requires Admissible(placement, nodes, views, w, floor, inbox)
    ensures Pool.Mergeable(owner, lps, w, Elements(inbox), floor)
  {
    hide UniqueKeys;
    forall e | e in inbox
      ensures e.target < |lps| && owner[e.target] == w && floor <= e.key.time && !HasKey(lps[e.target].pending, e.key)
    {
      assert RemoteMerge.Fits(placement, nodes, views, w, floor, e);
    }
    TwinsAreSame(inbox);
    forall i | 0 <= i < |lps| && owner[i] == w
      ensures UniqueKeys(lps[i].pending + Pool.To(Elements(inbox), i)) && lps[i].pending !! Pool.To(Elements(inbox), i)
    {
      FreshKeys(lps[i].pending, Pool.To(Elements(inbox), i));
    }
  }

  lemma MergeableIsAdmissible(owner: seq<nat>, placement: Placement, lps: seq<Lp>, nodes: seq<U64>, views: seq<Lp>, w: nat,
                              floor: nat, inbox: seq<Event>)
    requires Placed(owner, placement) && |lps| == |owner| && Shows(owner, placement, lps, nodes, views, w)
    requires NoRepeats(inbox) && Pool.Mergeable(owner, lps, w, Elements(inbox), floor)
    ensures Admissible(placement, nodes, views, w, floor, inbox)
  {
    hide UniqueKeys;
    forall e | e in inbox
      ensures RemoteMerge.Fits(placement, nodes, views, w, floor, e)
    {
      assert e in Elements(inbox) && e in Pool.To(Elements(inbox), e.target);
      KeyIsFresh(lps[e.target].pending, Pool.To(Elements(inbox), e.target), e);
    }
    NoTwinsHere(owner, lps, w, floor, inbox);
  }

  lemma TwinsAreSame(inbox: seq<Event>)
    requires NoTwins(inbox)
    ensures forall a, b | a in inbox && b in inbox && a.target == b.target && a.key == b.key :: a == b
  {
    forall a, b | a in inbox && b in inbox && a.target == b.target && a.key == b.key
      ensures a == b
    {
      var j :| 0 <= j < |inbox| && inbox[j] == a;
      var k :| 0 <= k < |inbox| && inbox[k] == b;
    }
  }

  lemma NoTwinsHere(owner: seq<nat>, lps: seq<Lp>, w: nat, floor: nat, inbox: seq<Event>)
    requires |lps| == |owner| && NoRepeats(inbox) && Pool.Mergeable(owner, lps, w, Elements(inbox), floor)
    ensures NoTwins(inbox)
  {
    hide UniqueKeys;
    forall j, k | 0 <= j < k < |inbox|
      ensures !(inbox[j].target == inbox[k].target && inbox[j].key == inbox[k].key)
    {
      var a, b, i := inbox[j], inbox[k], inbox[j].target;
      assert a in Elements(inbox) && b in Elements(inbox) && a != b;
      KeysApart(lps[i].pending + Pool.To(Elements(inbox), i), a, b);
    }
  }

  lemma FreshKeys(pending: set<Event>, more: set<Event>)
    requires UniqueKeys(pending) && (forall e | e in more :: !HasKey(pending, e.key))
    requires forall a, b | a in more && b in more && a.key == b.key :: a == b
    ensures UniqueKeys(pending + more) && pending !! more
  {
    forall e | e in more
      ensures e !in pending
    {
    }
  }

  lemma KeyIsFresh(pending: set<Event>, more: set<Event>, e: Event)
    requires UniqueKeys(pending + more) && pending !! more && e in more
    ensures !HasKey(pending, e.key)
  {
    if x :| x in pending && x.key == e.key {
      assert x in pending + more && e in pending + more;
      assert SameKey(x, e);
      assert false;
    }
  }

  lemma KeysApart(all: set<Event>, a: Event, b: Event)
    requires UniqueKeys(all) && a != b
    ensures a in all && b in all ==> a.key != b.key
  {
    assert a.key == b.key ==> SameKey(a, b);
  }
}
