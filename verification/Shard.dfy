/** One worker's shard: its processes and the frontier index over them. */
module Shard {
  import opened Basics
  import opened Events
  import opened LogicalProcess
  import opened FrontierIndex
  import RadixPasses
  import opened RadixOrder
  import opened RemoteMerge
  import Serial

  /** The index holds the next time of exactly the processes that have an event. */
  ghost predicate Tracks(f: Frontier, nodes: seq<U64>, views: seq<Lp>) {
    && |nodes| == |views|
    && (forall s :: s in f <==> 0 <= s < |views| && views[s].pending != {})
    && (forall s | s in f :: f[s] == (MinTime(views[s].pending).value, nodes[s]))
  }

  /** The drains of every process of the shard succeed and send only to known nodes. */
  ghost predicate Drains(m: Model, nodes: seq<U64>, views: seq<Lp>, horizon: nat, capacity: Option<nat>, known: nat)
    requires |nodes| == |views|
  {
    forall s | 0 <= s < |views| :: Goes(m, nodes[s], views[s], horizon, capacity, known)
  }

  ghost predicate Goes(m: Model, node: U64, view: Lp, horizon: nat, capacity: Option<nat>, known: nat) {
    && UniqueKeys(view.pending)
    && DrainLp(m, node, view, horizon, capacity).Some?
    && forall e | e in DrainLp(m, node, view, horizon, capacity).value.outbox :: e.target < known
  }

  /** The process after its drain. */
  ghost function After(m: Model, node: U64, view: Lp, horizon: nat, capacity: Option<nat>): Lp
    requires UniqueKeys(view.pending)
  {
    match DrainLp(m, node, view, horizon, capacity)
    case None => view
    case Some(d) => d.lp
  }

  /** What a process sends to the processes of worker `o`. */
  ghost function SentTo(m: Model, node: U64, view: Lp, horizon: nat, capacity: Option<nat>, placement: Placement, o: nat)
    : set<Event>
    requires UniqueKeys(view.pending)
  {
    match DrainLp(m, node, view, horizon, capacity)
    case None => {}
    case Some(d) => ToOwner(d.outbox, placement, o)
  }

  ghost function ToOwner(outbox: seq<Event>, placement: Placement, o: nat): set<Event> {
    set e | e in outbox && e.target < |placement| && placement[e.target].worker == o
  }

  /** What the processes in `of` send to worker `o`. */
  ghost function SentBy(m: Model, nodes: seq<U64>, views: seq<Lp>, horizon: nat, capacity: Option<nat>,
                        placement: Placement, of: set<nat>, o: nat): set<Event>
    requires |nodes| == |views| && forall s | 0 <= s < |views| :: UniqueKeys(views[s].pending)
  {
    set s, e | s in of && 0 <= s < |views| && e in SentTo(m, nodes[s], views[s], horizon, capacity, placement, o) :: e
  }

  /** What the shard sends to worker `o`. */
  ghost function AllSentTo(m: Model, nodes: seq<U64>, views: seq<Lp>, horizon: nat, capacity: Option<nat>,
                           placement: Placement, o: nat): set<Event>
    requires |nodes| == |views| && forall s | 0 <= s < |views| :: UniqueKeys(views[s].pending)
  {
    set s, e | 0 <= s < |views| && e in SentTo(m, nodes[s], views[s], horizon, capacity, placement, o) :: e
  }

  ghost function AllPending(views: seq<Lp>): set<Event> {
    set s, e | 0 <= s < |views| && e in views[s].pending :: e
  }

  /** A process with nothing below the horizon has nothing to drain. */
  lemma IdleDrain(m: Model, node: U64, view: Lp, horizon: nat, capacity: Option<nat>)
    requires UniqueKeys(view.pending) && !Below(view.pending, horizon)
    ensures DrainLp(m, node, view, horizon, capacity) == Some(Drained(view, []))
  {
  }

  lemma EmptyShard(f: Frontier, nodes: seq<U64>, views: seq<Lp>)
    requires Tracks(f, nodes, views) && f == map[]
    ensures AllPending(views) == {}
  {
    forall s | 0 <= s < |views|
      ensures views[s].pending == {}
    {
      assert s !in f;
    }
  }

  /** The least time of the shard is that of the least entry of its index. */
  lemma LeastEntryIsMin(f: Frontier, nodes: seq<U64>, views: seq<Lp>, least: Entry)
    requires Tracks(f, nodes, views) && IsLeastEntry(least, f)
    ensures MinTime(AllPending(views)) == Some(least.time)
  {
    hide MinTime;
    var all, t := AllPending(views), least.time;
    var e := HasTime(views[least.slot].pending, t);
    assert e in all;
    forall x | x in all
      ensures t <= x.key.time
    {
      var s :| 0 <= s < |views| && x in views[s].pending;
      assert s in f;
      MinIsBelow(views[s].pending, x);
    }
    MinTimeIs(all, t);
  }

  lemma HasTime(events: set<Event>, t: U64) returns (e: Event)
    requires events != {} && MinTime(events).value == t
    ensures e in events && e.key.time == t
  {
    e :| e in events && e.key.time == t;
  }

  lemma MinIsBelow(events: set<Event>, e: Event)
    requires e in events
    ensures MinTime(events).Some? && MinTime(events).value <= e.key.time
  {
  }

  lemma ToOwnerSnoc(outbox: seq<Event>, i: nat, placement: Placement, o: nat)
    requires i < |outbox| && outbox[i].target < |placement|
    ensures ToOwner(outbox[..i + 1], placement, o) ==
            ToOwner(outbox[..i], placement, o) + if placement[outbox[i].target].worker == o then {outbox[i]} else {}
  {
    assert outbox[..i + 1] == outbox[..i] + [outbox[i]];
  }

  lemma NothingToOwner(outbox: seq<Event>, placement: Placement)
    ensures forall o :: ToOwner(outbox[..0], placement, o) == {}
  {
  }

  /** Sorts an outbox by the owner of each target. */
  method RouteOutbox(outbox: seq<Event>, placement: Placement, remote: seq<seq<Event>>)
    returns (r: Option<seq<seq<Event>>>)
    requires forall h | h in placement :: h.worker < |remote|
    ensures r.Some? <==> forall e | e in outbox :: e.target < |placement|
    ensures r.Some? ==>
              && |r.value| == |remote|
              && forall o | 0 <= o < |remote| :: Elements(r.value[o]) == Elements(remote[o]) + ToOwner(outbox, placement, o)
  {
    hide Elements, ToOwner;
    var routed := remote;
    NothingToOwner(outbox, placement);
    for i := 0 to |outbox|
      invariant |routed| == |remote|
      invariant forall e | e in outbox[..i] :: e.target < |placement|
      invariant forall o | 0 <= o < |remote| ::
                  Elements(routed[o]) == Elements(remote[o]) + ToOwner(outbox[..i], placement, o)
    {
      var e := outbox[i];
      if e.target >= |placement| {
        return None;
      }
      var owner := placement[e.target].worker;
      Serial.ElementsSnoc(routed[owner], e);
      forall o | 0 <= o < |remote|
        ensures ToOwner(outbox[..i + 1], placement, o) ==
                ToOwner(outbox[..i], placement, o) + if owner == o then {e} else {}
      {
        ToOwnerSnoc(outbox, i, placement, o);
      }
      routed := routed[owner := routed[owner] + [e]];
      assert outbox[..i + 1] == outbox[..i] + [e];
    }
    assert outbox[..|outbox|] == outbox;
    return Some(routed);
  }

  datatype OwnedRoundDrain = OwnedRoundDrain(remote: seq<seq<Event>>, minimum: Option<U64>)

  /** The index holds the next times of the first `n` processes. */
  ghost predicate TracksFirst(f: Frontier, nodes: seq<U64>, views: seq<Lp>, n: nat)
    requires n <= |views| == |nodes|
  {
    && (forall s :: s in f <==> 0 <= s < n && views[s].pending != {})
    && (forall s | s in f :: f[s] == (MinTime(views[s].pending).value, nodes[s]))
  }

  lemma TracksNone(nodes: seq<U64>, views: seq<Lp>)
    requires |views| == |nodes|
    ensures TracksFirst(map[], nodes, views, 0)
  {
  }

  lemma TracksNext(f: Frontier, g: Frontier, nodes: seq<U64>, views: seq<Lp>, n: nat)
    requires n < |views| == |nodes| && TracksFirst(f, nodes, views, n)
    requires g == if views[n].pending == {} then f - {n} else f[n := (MinTime(views[n].pending).value, nodes[n])]
    ensures TracksFirst(g, nodes, views, n + 1)
  {
    hide MinTime;
  }

  lemma TracksAll(f: Frontier, nodes: seq<U64>, views: seq<Lp>)
    requires |views| == |nodes| && TracksFirst(f, nodes, views, |views|)
    ensures Tracks(f, nodes, views)
  {
    hide MinTime;
  }

  /** The index after the process in `slot` changed and its next time was recorded. */
  lemma TracksAfter(f: Frontier, g: Frontier, nodes: seq<U64>, views: seq<Lp>, slot: nat, view: Lp)
    requires Tracks(f, nodes, views) && slot < |views|
    requires g == if view.pending == {} then f - {slot} else f[slot := (MinTime(view.pending).value, nodes[slot])]
    ensures Tracks(g, nodes, views[slot := view])
  {
    hide MinTime;
  }

  lemma UpdateAfterPop(f: Frontier, slot: nat, entry: (U64, U64))
    ensures (f - {slot})[slot := entry] == f[slot := entry] && f - {slot} - {slot} == f - {slot}
  {
  }

  /** The processes in `done` are drained, the others as they were. */
  ghost predicate Progress(m: Model, nodes: seq<U64>, was: seq<Lp>, views: seq<Lp>, horizon: nat, capacity: Option<nat>,
                           known: nat, done: set<nat>) {
    && |nodes| == |was| == |views|
    && (forall s | 0 <= s < |was| :: UniqueKeys(was[s].pending))
    && (forall s | s in done :: 0 <= s < |was| && Goes(m, nodes[s], was[s], horizon, capacity, known))
    && (forall s | 0 <= s < |was| ::
          views[s] == if s in done then After(m, nodes[s], was[s], horizon, capacity) else was[s])
  }

  /** A process that is found before the horizon was not drained yet. */
  lemma NotDone(m: Model, nodes: seq<U64>, was: seq<Lp>, views: seq<Lp>, horizon: nat, capacity: Option<nat>, known: nat,
                done: set<nat>, f: Frontier, entry: Entry)
    requires Progress(m, nodes, was, views, horizon, capacity, known, done) && Tracks(f, nodes, views)
    requires IsLeastEntry(entry, f) && entry.time < horizon
    ensures entry.slot < |views| && entry.slot !in done && views[entry.slot] == was[entry.slot]
  {
    hide MinTime, DrainLp;
    var e := HasTime(views[entry.slot].pending, entry.time);
    assert Below(views[entry.slot].pending, horizon);
  }

  lemma OneMoreDone(m: Model, nodes: seq<U64>, was: seq<Lp>, views: seq<Lp>, horizon: nat, capacity: Option<nat>,
                    known: nat, done: set<nat>, slot: nat)
    requires Progress(m, nodes, was, views, horizon, capacity, known, done) && slot < |was|
    requires Goes(m, nodes[slot], was[slot], horizon, capacity, known)
    ensures Progress(m, nodes, was, views[slot := After(m, nodes[slot], was[slot], horizon, capacity)], horizon, capacity,
                     known, done + {slot})
  {
    hide UniqueKeys, Goes, After;
  }

  lemma OneMoreSent(m: Model, nodes: seq<U64>, was: seq<Lp>, horizon: nat, capacity: Option<nat>, placement: Placement,
                    done: set<nat>, slot: nat, o: nat)
    requires |nodes| == |was| && (forall s | 0 <= s < |was| :: UniqueKeys(was[s].pending)) && slot < |was|
    ensures SentBy(m, nodes, was, horizon, capacity, placement, done + {slot}, o) ==
            SentBy(m, nodes, was, horizon, capacity, placement, done, o) +
            SentTo(m, nodes[slot], was[slot], horizon, capacity, placement, o)
  {
    hide SentTo, UniqueKeys;
  }

  /** When nothing is left before the horizon, every process has been drained in effect. */
  lemma RoundIsDone(m: Model, nodes: seq<U64>, was: seq<Lp>, views: seq<Lp>, horizon: nat, capacity: Option<nat>,
                    placement: Placement, done: set<nat>, f: Frontier)
    requires Progress(m, nodes, was, views, horizon, capacity, |placement|, done) && Tracks(f, nodes, views)
    requires forall s | s in f :: horizon <= f[s].0
    ensures Drains(m, nodes, was, horizon, capacity, |placement|)
    ensures forall s | 0 <= s < |was| :: views[s] == After(m, nodes[s], was[s], horizon, capacity)
    ensures forall o :: SentBy(m, nodes, was, horizon, capacity, placement, done, o) ==
                        AllSentTo(m, nodes, was, horizon, capacity, placement, o)
  {
    hide MinTime, DrainLp, AllSentTo, SentBy;
    forall s | 0 <= s < |was| && s !in done
      ensures Goes(m, nodes[s], was[s], horizon, capacity, |placement|)
      ensures views[s] == After(m, nodes[s], was[s], horizon, capacity)
      ensures forall o :: SentTo(m, nodes[s], was[s], horizon, capacity, placement, o) == {}
    {
      NothingBelowMin(was[s].pending, horizon);
      assert s in f ==> horizon <= f[s].0;
      IdleDrain(m, nodes[s], was[s], horizon, capacity);
      forall o
        ensures ToOwner([], placement, o) == {}
      {
      }
    }
    SentByDone(m, nodes, was, horizon, capacity, placement, done);
  }

  lemma NothingBelowMin(events: set<Event>, horizon: nat)
    ensures Below(events, horizon) ==> events != {} && MinTime(events).value < horizon
  {
    if Below(events, horizon) {
      var e :| e in events && e.key.time < horizon;
      MinIsBelow(events, e);
    }
  }

  lemma SentByDone(m: Model, nodes: seq<U64>, was: seq<Lp>, horizon: nat, capacity: Option<nat>, placement: Placement,
                   done: set<nat>)
    requires |nodes| == |was| && (forall s | 0 <= s < |was| :: UniqueKeys(was[s].pending))
    requires forall s | s in done :: s < |was|
    requires forall s, o | 0 <= s < |was| && s !in done ::
               SentTo(m, nodes[s], was[s], horizon, capacity, placement, o) == {}
    ensures forall o :: SentBy(m, nodes, was, horizon, capacity, placement, done, o) ==
                        AllSentTo(m, nodes, was, horizon, capacity, placement, o)
  {
    hide SentTo, UniqueKeys;
    forall o
      ensures SentBy(m, nodes, was, horizon, capacity, placement, done, o) ==
              AllSentTo(m, nodes, was, horizon, capacity, placement, o)
    {
      var all := AllSentTo(m, nodes, was, horizon, capacity, placement, o);
      forall e | e in all
        ensures e in SentBy(m, nodes, was, horizon, capacity, placement, done, o)
      {
        var s :| 0 <= s < |was| &&
                 e in SentTo(m, nodes[s], was[s], horizon, capacity, placement, o);
        assert s in done;
      }
    }
  }

  lemma NothingDone(m: Model, nodes: seq<U64>, was: seq<Lp>, horizon: nat, capacity: Option<nat>, placement: Placement)
    requires |nodes| == |was| && forall s | 0 <= s < |was| :: UniqueKeys(was[s].pending)
    ensures Progress(m, nodes, was, was, horizon, capacity, |placement|, {})
    ensures forall o :: SentBy(m, nodes, was, horizon, capacity, placement, {}, o) == Elements([])
  {
    hide UniqueKeys, DrainLp;
  }

  lemma NotAllGo(m: Model, nodes: seq<U64>, was: seq<Lp>, horizon: nat, capacity: Option<nat>, known: nat, slot: nat)
    requires |nodes| == |was| && slot < |was| && !Goes(m, nodes[slot], was[slot], horizon, capacity, known)
    ensures !Drains(m, nodes, was, horizon, capacity, known)
  {
  }

  lemma CountDone(m: Model, nodes: seq<U64>, was: seq<Lp>, views: seq<Lp>, horizon: nat, capacity: Option<nat>, known: nat,
                  done: set<nat>)
    requires Progress(m, nodes, was, views, horizon, capacity, known, done)
    ensures |done| <= |was|
  {
    hide UniqueKeys, Goes, After;
    AtMost(done, |was|);
  }

  lemma EntryIsAbove(f: Frontier, e: Entry, horizon: nat)
    requires IsLeastEntry(e, f) && forall s | s in f :: horizon <= f[s].0
    ensures horizon <= e.time
  {
  }

  lemma FailsEarly(placement: Placement, nodes: seq<U64>, was: seq<Lp>, worker: nat, floor: nat, events: seq<Event>, k: nat)
    requires |nodes| == |was| && k <= |events| && !Admissible(placement, nodes, was, worker, floor, events[..k])
    ensures !Admissible(placement, nodes, was, worker, floor, events)
  {
    hide Admissible;
    if Admissible(placement, nodes, was, worker, floor, events) {
      PrefixIsAdmissible(placement, nodes, was, worker, floor, events, k);
    }
  }

  lemma NotRouted(placement: Placement, nodes: seq<U64>, was: seq<Lp>, worker: nat, floor: nat, events: seq<Event>, k: nat)
    requires |nodes| == |was| && k < |events| && !Routed(placement, nodes, worker, events[k])
    ensures !Admissible(placement, nodes, was, worker, floor, events)
  {
    assert events[k] in events;
  }

  lemma MergedAll(placement: Placement, nodes: seq<U64>, was: seq<Lp>, worker: nat, floor: nat, events: seq<Event>, views: seq<Lp>)
    requires |nodes| == |was| && MergedFirst(placement, nodes, was, worker, floor, events, |events|, views)
    ensures Admissible(placement, nodes, was, worker, floor, events) && views == Inserted(placement, was, events)
  {
    hide Admissible, Inserted;
    assert events[..|events|] == events;
  }

  /** The end of the run of events with one target. */
  method GroupEnd(events: seq<Event>, offset: nat) returns (end: nat)
    requires offset < |events|
    ensures offset < end <= |events|
    ensures forall k | offset <= k < end :: events[k].target == events[offset].target
    ensures end < |events| ==> events[end].target != events[offset].target
  {
    end := offset + 1;
    while end < |events| && events[end].target == events[offset].target
      invariant offset < end <= |events|
      invariant forall k | offset <= k < end :: events[k].target == events[offset].target
    {
      end := end + 1;
    }
  }

  class WorkerShard {
    const worker: nat
    const lps: seq<CpuLp>
    const frontier: OwnerFrontierIndex

    /** The processes are distinct and sound, and the index has a slot for each. */
    ghost predicate Sound()
      reads this, lps, frontier
    {
      && (forall i, j | 0 <= i < j < |lps| :: lps[i] != lps[j])
      && (forall i | 0 <= i < |lps| :: lps[i].Valid())
      && frontier.Valid() && |frontier.active| == |lps|
    }

    ghost predicate Valid()
      reads this, lps, frontier
    {
      Sound() && Tracks(frontier.View(), Nodes(), Views())
    }

    ghost function Nodes(): seq<U64> { seq(|lps|, i requires 0 <= i < |lps| => lps[i].node) }

    ghost function Views(): (r: seq<Lp>)
      reads lps
      ensures |r| == |lps|
    {
      seq(|lps|, i requires 0 <= i < |lps| reads lps => lps[i].View())
    }

    /** Indexes every process by its next event. */
    constructor (worker: nat, lps: seq<CpuLp>)
      requires forall i, j | 0 <= i < j < |lps| :: lps[i] != lps[j]
      requires forall i | 0 <= i < |lps| :: lps[i].Valid()
      ensures Valid() && this.worker == worker && this.lps == lps && fresh(frontier)
    {
      hide MinTime, TracksFirst, Tracks, AreLinked, FrontierOf, HeapOrdered, UniqueKeys;
      var index := new OwnerFrontierIndex(|lps|);
      this.worker, this.lps, this.frontier := worker, lps, index;
      new;
      TracksNone(Nodes(), Views());
      for slot := 0 to |lps|
        invariant Sound() && fresh(frontier)
        invariant TracksFirst(frontier.View(), Nodes(), Views(), slot)
      {
        var next := lps[slot].NextTime();
        ghost var before := frontier.View();
        var ok := frontier.Update(slot, lps[slot].node, next);
        TracksNext(before, frontier.View(), Nodes(), Views(), slot);
      }
      TracksAll(frontier.View(), Nodes(), Views());
    }

    /** Records the next time of the process in `slot`. */
    method Reindex(slot: nat, ghost f: Frontier, ghost views: seq<Lp>)
      requires Sound() && slot < |lps| == |views| && Tracks(f, Nodes(), views)
      requires frontier.View() == f || frontier.View() == f - {slot}
      requires Views() == views[slot := lps[slot].View()]
      modifies frontier
      ensures Valid() && Views() == old(Views())
    {
      hide Tracks, AreLinked, FrontierOf, HeapOrdered, UniqueKeys, MinTime;
      var next := lps[slot].NextTime();
      var ok := frontier.Update(slot, lps[slot].node, next);
      if next.Some? {
        UpdateAfterPop(f, slot, (next.value, lps[slot].node));
      }
      TracksAfter(f, frontier.View(), Nodes(), views, slot, lps[slot].View());
    }

    /** Drains the process in `slot`, whose entry was taken out of the index, and routes what it sent. */
    method DrainSlot(slot: nat, m: Model, horizon: nat, capacity: Option<nat>, placement: Placement,
                     remote: seq<seq<Event>>, ghost f: Frontier) returns (r: Option<seq<seq<Event>>>)
      requires Sound() && slot < |lps| && Tracks(f, Nodes(), Views()) && frontier.View() == f - {slot}
      requires forall h | h in placement :: h.worker < |remote|
      modifies lps, frontier
      ensures r.Some? == Goes(m, Nodes()[slot], old(Views())[slot], horizon, capacity, |placement|)
      ensures r.Some? ==> Valid()
      ensures r.Some? ==> Views() == old(Views())[slot := After(m, Nodes()[slot], old(Views())[slot], horizon, capacity)]
      ensures r.Some? ==>
                && |r.value| == |remote|
                && forall o | 0 <= o < |remote| ::
                     Elements(r.value[o]) ==
                     Elements(remote[o]) + SentTo(m, Nodes()[slot], old(Views())[slot], horizon, capacity, placement, o)
    {
      hide DrainLp, Tracks, AreLinked, FrontierOf, HeapOrdered, UniqueKeys, MinTime, ToOwner, Elements;
      ghost var views := Views();
      var outbox, processed := lps[slot].Drain(m, horizon, capacity);
      if outbox.None? {
        return None;
      }
      r := RouteOutbox(outbox.value, placement, remote);
      if r.Some? {
        assert Views() == views[slot := lps[slot].View()];
        Reindex(slot, f, views);
      }
    }

    /** One round of the shard: drains every process that has an event below the horizon, earliest
        first, and sorts what they send by its owner. No process keeps an event below the horizon. */
    method DrainOwnedRound(m: Model, horizon: nat, capacity: Option<nat>, placement: Placement, workers: nat)
      returns (r: Option<OwnedRoundDrain>)
      requires Valid() && forall h | h in placement :: h.worker < workers
      modifies lps, frontier
      ensures r.Some? == Drains(m, Nodes(), old(Views()), horizon, capacity, |placement|)
      ensures r.Some? ==>
                && Valid()
                && forall s | 0 <= s < |lps| :: Views()[s] == After(m, Nodes()[s], old(Views())[s], horizon, capacity)
      ensures r.Some? ==>
                && |r.value.remote| == workers
                && forall o | 0 <= o < workers ::
                     Elements(r.value.remote[o]) == AllSentTo(m, Nodes(), old(Views()), horizon, capacity, placement, o)
      ensures r.Some? ==>
                && r.value.minimum == MinTime(AllPending(Views()))
                && (r.value.minimum.Some? ==> horizon <= r.value.minimum.value)
    {
      hide DrainLp, AreLinked, FrontierOf, HeapOrdered, UniqueKeys, MinTime, Elements, Goes, After, SentTo, SentBy, AllSentTo,
           Progress, Tracks, AllPending, IsLeastEntry, Drains;
      ghost var was, done: set<nat> := Views(), {};
      var remote: seq<seq<Event>> := seq(workers, _ => []);
      NothingDone(m, Nodes(), was, horizon, capacity, placement);
      while true
        invariant Valid() && |remote| == workers && |done| <= |lps|
        invariant Progress(m, Nodes(), was, Views(), horizon, capacity, |placement|, done)
        invariant forall s | 0 <= s < |was| :: UniqueKeys(was[s].pending)
        invariant forall o | 0 <= o < workers ::
                    Elements(remote[o]) == SentBy(m, Nodes(), was, horizon, capacity, placement, done, o)
        decreases |lps| - |done|
      {
        ghost var f, views := frontier.View(), Views();
        var entry := frontier.PopBefore(horizon);
        if entry.None? {
          break;
        }
        var slot := entry.value.slot;
        NotDone(m, Nodes(), was, views, horizon, capacity, |placement|, done, f, entry.value);
        var routed := DrainSlot(slot, m, horizon, capacity, placement, remote, f);
        if routed.None? {
          NotAllGo(m, Nodes(), was, horizon, capacity, |placement|, slot);
          return None;
        }
        OneMoreDone(m, Nodes(), was, views, horizon, capacity, |placement|, done, slot);
        forall o | 0 <= o < workers
          ensures Elements(routed.value[o]) == SentBy(m, Nodes(), was, horizon, capacity, placement, done + {slot}, o)
        {
          OneMoreSent(m, Nodes(), was, horizon, capacity, placement, done, slot, o);
        }
        CountDone(m, Nodes(), was, Views(), horizon, capacity, |placement|, done + {slot});
        done, remote := done + {slot}, routed.value;
      }
      RoundIsDone(m, Nodes(), was, Views(), horizon, capacity, placement, done, frontier.View());
      var least := frontier.PeekMin();
      if least.None? {
        EmptyShard(frontier.View(), Nodes(), Views());
        return Some(OwnedRoundDrain(remote, None));
      }
      LeastEntryIsMin(frontier.View(), Nodes(), Views(), least.value);
      EntryIsAbove(frontier.View(), least.value, horizon);
      return Some(OwnedRoundDrain(remote, Some(least.value.time)));
    }

    /** Inserts the events from `from` to `to`, all for the process in `slot`. */
    method InsertGroup(events: seq<Event>, from: nat, to: nat, slot: nat, floor: nat, placement: Placement, ghost was: seq<Lp>)
      returns (ok: bool)
      requires Sound() && from <= to <= |events| && slot < |lps| == |was|
      requires MergedFirst(placement, Nodes(), was, worker, floor, events, from, Views())
      requires forall k | from <= k < to :: Routed(placement, Nodes(), worker, events[k]) && placement[events[k].target].slot == slot
      modifies lps
      ensures Sound()
      ensures ok ==> MergedFirst(placement, Nodes(), was, worker, floor, events, to, Views())
      ensures ok ==> Views() == old(Views())[slot := lps[slot].View()]
      ensures !ok ==> !Admissible(placement, Nodes(), was, worker, floor, events)
    {
      hide MergedFirst, Admissible, AreLinked, FrontierOf, HeapOrdered, UniqueKeys;
      for k := from to to
        invariant Sound()
        invariant MergedFirst(placement, Nodes(), was, worker, floor, events, k, Views())
        invariant Views() == old(Views())[slot := lps[slot].View()]
      {
        ghost var views := Views();
        AdmissibleNext(placement, Nodes(), was, worker, floor, events, k, views);
        if events[k].key.time < floor {
          FailsEarly(placement, Nodes(), was, worker, floor, events, k + 1);
          return false;
        }
        var inserted := lps[slot].Insert(events[k]);
        if !inserted {
          FailsEarly(placement, Nodes(), was, worker, floor, events, k + 1);
          return false;
        }
        MergedNext(placement, Nodes(), was, worker, floor, events, k, views);
        assert Views() == views[slot := Lp(views[slot].state, views[slot].pending + {events[k]})];
      }
      ok := true;
    }

    /** Merges a batch: sorts it, inserts the events of each target and records its next time. */
    method MergeStaticRemote(inbox: seq<Event>, floor: nat, placement: Placement) returns (ok: bool)
      requires Valid()
      modifies lps, frontier
      ensures ok == Admissible(placement, Nodes(), old(Views()), worker, floor, inbox)
      ensures ok ==> Valid() && Views() == Inserted(placement, old(Views()), inbox)
    {
      hide MergedFirst, Admissible, AreLinked, FrontierOf, HeapOrdered, UniqueKeys, Inserted, IsStableSort, Tracks;
      var sorted := RadixPasses.SortEnvelopes(inbox);
      ghost var was := Views();
      SortedMergesAlike(placement, Nodes(), was, worker, floor, inbox, sorted);
      MergedNone(placement, Nodes(), was, worker, floor, sorted);
      var offset: nat := 0;
      while offset < |sorted|
        invariant offset <= |sorted| && Valid()
        invariant MergedFirst(placement, Nodes(), was, worker, floor, sorted, offset, Views())
      {
        var target := sorted[offset].target;
        if !(target < |placement| && placement[target].worker == worker && placement[target].slot < |lps| &&
             lps[placement[target].slot].node == target) {
          NotRouted(placement, Nodes(), was, worker, floor, sorted, offset);
          return false;
        }
        var slot := placement[target].slot;
        var end := GroupEnd(sorted, offset);
        ghost var f, views := frontier.View(), Views();
        ok := InsertGroup(sorted, offset, end, slot, floor, placement, was);
        if !ok {
          return;
        }
        Reindex(slot, f, views);
        offset := end;
      }
      MergedAll(placement, Nodes(), was, worker, floor, sorted, Views());
      ok := true;
    }
  }
}
