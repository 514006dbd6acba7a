/** How a dispatched round is cut into chunks, and runs of dispatched rounds. */
module DispatchPartition {
  import opened Basics
  import opened Events
  import opened LogicalProcess
  import opened Rounds
  import opened Executor
  import opened DispatchRound
  import Dispatch
  import DispatchProgress
  import DispatchRuns

  /** An active process and the number of its events below the horizon. */
  datatype Active = Active(node: nat, estimated: nat)

  datatype Granularity = Static | Fixed(size: nat)

  /** What the configuration says of a round. */
  datatype Classes = Classes(workers: nat, configured: nat, threshold: Option<nat>, granularity: Granularity)

  predicate ValidClasses(c: Classes) {
    c.workers > 0 && c.configured > 0 && (c.granularity.Fixed? ==> c.granularity.size > 0)
  }

  predicate IsStraggler(c: Classes, a: Active) { c.threshold.Some? && a.estimated > c.threshold.value }

  /** The nodes of a list that are stragglers, or that are not, in its order. */
  function Picked(c: Classes, active: seq<Active>, stragglers: bool): seq<nat> {
    if active == [] then []
    else
      var last := active[|active| - 1];
      Picked(c, active[..|active| - 1], stragglers) + if IsStraggler(c, last) == stragglers then [last.node] else []
  }

  function NodesIn(active: seq<Active>): seq<nat> { seq(|active|, i requires 0 <= i < |active| => active[i].node) }

  lemma Appended(few: seq<nat>, node: nat)
    ensures multiset(few + [node]) == multiset(few) + multiset{node}
  {
  }

  lemma NodesSnoc(active: seq<Active>)
    requires active != []
    ensures multiset(NodesIn(active)) == multiset(NodesIn(active[..|active| - 1])) + multiset{active[|active| - 1].node}
  {
    var n := |active| - 1;
    assert NodesIn(active) == NodesIn(active[..n]) + [active[n].node];
    Appended(NodesIn(active[..n]), active[n].node);
  }

  lemma PickedStep(c: Classes, active: seq<Active>, stragglers: bool)
    requires active != []
    ensures var n := |active| - 1;
            multiset(Picked(c, active, stragglers)) == multiset(Picked(c, active[..n], stragglers)) +
              if IsStraggler(c, active[n]) == stragglers then multiset{active[n].node} else multiset{}
  {
    var n := |active| - 1;
    Appended(Picked(c, active[..n], stragglers), active[n].node);
  }

  /** Every process is a straggler or bulk. */
  lemma {:induction false} PickedAll(c: Classes, active: seq<Active>)
    ensures multiset(Picked(c, active, true)) + multiset(Picked(c, active, false)) == multiset(NodesIn(active))
  {
    if active == [] {
      assert NodesIn(active) == [];
    } else {
      hide Picked, NodesIn;
      PickedAll(c, active[..|active| - 1]);
      NodesSnoc(active);
      PickedStep(c, active, true);
      PickedStep(c, active, false);
    }
  }

  lemma PickedSnoc(c: Classes, active: seq<Active>, n: nat, stragglers: bool)
    requires n < |active|
    ensures Picked(c, active[..n + 1], stragglers) ==
            Picked(c, active[..n], stragglers) + if IsStraggler(c, active[n]) == stragglers then [active[n].node] else []
  {
    assert active[..n + 1][..n] == active[..n];
  }

  function Single(node: nat): seq<nat> { [node] }

  function Singles(nodes: seq<nat>): seq<seq<nat>> { seq(|nodes|, i requires 0 <= i < |nodes| => Single(nodes[i])) }

  /** The numbers from `from` on. */
  function CountFrom(from: nat, count: nat): seq<nat> { seq(count, i => from + i) }

  /** The workers that take bulk chunks. */
  function BulkWorkers(c: Classes, dedicated: nat): nat { if dedicated < c.workers then c.workers - dedicated else 1 }

  /** How many processes a bulk chunk has. */
  function ChunkSize(c: Classes, bulk: nat, dedicated: nat): (size: nat)
    requires ValidClasses(c)
    ensures size > 0
  {
    match c.granularity
    case Fixed(size) => size
    case Static => Max((bulk + BulkWorkers(c, dedicated) - 1) / BulkWorkers(c, dedicated), 1)
  }

  /** One chunk for each straggler, then full chunks of the rest, and as many workers set aside as there is
      use for. */
  ghost predicate IsPartition(c: Classes, active: seq<Active>, chunks: seq<seq<nat>>, u: Dispatch.Round)
    requires ValidClasses(c)
  {
    var stragglers, bulk := Picked(c, active, true), Picked(c, active, false);
    var s := |stragglers|;
    && s <= |chunks| && chunks[..s] == Singles(stragglers) && Dispatch.Joined(chunks[s..]) == bulk
    && (forall k | s <= k < |chunks| :: 0 < |chunks[k]| <= ChunkSize(c, |bulk|, u.dedicated))
    && (forall k | s <= k < |chunks| - 1 :: |chunks[k]| == ChunkSize(c, |bulk|, u.dedicated))
    && u.stragglers == CountFrom(0, s) && u.bulk == CountFrom(s, |chunks| - s) && u.workers == c.workers
    && u.dedicated == Dispatch.DedicatedCount(c.workers, c.configured, s, |bulk|)
  }

  lemma NoChunks(chunks: seq<seq<nat>>)
    requires forall k | 0 <= k < |chunks| :: |chunks[k]| > 0
    ensures Dispatch.Joined(chunks) == [] <==> chunks == []
  {
  }

  /** Cuts the active processes into chunks. */
  method PartitionRound(c: Classes, active: seq<Active>) returns (chunks: seq<seq<nat>>, u: Dispatch.Round)
    requires ValidClasses(c)
    ensures IsPartition(c, active, chunks, u) && Dispatch.ValidRound(u)
  {
    hide Dispatch.Joined;
    var stragglers: seq<nat>, bulk: seq<nat> := [], [];
    for n := 0 to |active|
      invariant stragglers == Picked(c, active[..n], true) && bulk == Picked(c, active[..n], false)
    {
      PickedSnoc(c, active, n, true);
      PickedSnoc(c, active, n, false);
      if IsStraggler(c, active[n]) {
        stragglers := stragglers + [active[n].node];
      } else {
        bulk := bulk + [active[n].node];
      }
    }
    assert active[..|active|] == active;
    var dedicated := Dispatch.DedicatedCount(c.workers, c.configured, |stragglers|, |bulk|);
    var pieces := Dispatch.Chunked(bulk, ChunkSize(c, |bulk|, dedicated));
    chunks := Singles(stragglers) + pieces;
    u := Dispatch.Round(c.workers, dedicated, CountFrom(0, |stragglers|), CountFrom(|stragglers|, |pieces|));
    assert chunks[..|stragglers|] == Singles(stragglers) && chunks[|stragglers|..] == pieces;
    PartitionIsValid(c, active, chunks, u);
  }

  lemma PartitionIsValid(c: Classes, active: seq<Active>, chunks: seq<seq<nat>>, u: Dispatch.Round)
    requires ValidClasses(c) && IsPartition(c, active, chunks, u)
    ensures Dispatch.ValidRound(u)
  {
    hide Picked, Dispatch.Joined;
    NoChunks(chunks[|Picked(c, active, true)|..]);
    assert u.dedicated == Dispatch.DedicatedCount(u.workers, c.configured, |u.stragglers|, |u.bulk|);
  }

  lemma {:induction false} JoinedSingles(nodes: seq<nat>)
    ensures Dispatch.Joined(Singles(nodes)) == nodes
  {
    if nodes != [] {
      var n := |nodes| - 1;
      JoinedSingles(nodes[..n]);
      assert Singles(nodes)[..n] == Singles(nodes[..n]);
    }
  }

  lemma {:induction false} JoinedSplits(a: seq<seq<nat>>, b: seq<seq<nat>>)
    ensures Dispatch.Joined(a + b) == Dispatch.Joined(a) + Dispatch.Joined(b)
  {
    if b == [] {
      assert a + b == a;
    } else {
      var n := |b| - 1;
      JoinedSplits(a, b[..n]);
      assert (a + b)[..|a + b| - 1] == a + b[..n];
    }
  }

  /** All chunks in the order of their numbers. */
  lemma {:induction false} NodesInOrder(chunks: seq<seq<nat>>, n: nat)
    requires n <= |chunks|
    ensures Known(chunks, CountFrom(0, n)) && NodesOf(chunks, CountFrom(0, n)) == Dispatch.Joined(chunks[..n])
  {
    if n > 0 {
      NodesInOrder(chunks, n - 1);
      assert CountFrom(0, n)[..n - 1] == CountFrom(0, n - 1);
      assert chunks[..n][..n - 1] == chunks[..n - 1];
    }
  }

  /** The chunks of a partition hold the processes that were cut, each as often as it was there. */
  lemma PartitionKeeps(c: Classes, active: seq<Active>, chunks: seq<seq<nat>>, u: Dispatch.Round)
    requires ValidClasses(c) && IsPartition(c, active, chunks, u)
    ensures Known(chunks, u.stragglers + u.bulk)
    ensures multiset(NodesOf(chunks, u.stragglers + u.bulk)) == multiset(NodesIn(active))
  {
    hide Picked, NodesIn, Dispatch.Joined, NodesOf, Singles;
    var stragglers := Picked(c, active, true);
    var s := |stragglers|;
    assert u.stragglers + u.bulk == CountFrom(0, |chunks|);
    NodesInOrder(chunks, |chunks|);
    assert chunks[..|chunks|] == chunks == chunks[..s] + chunks[s..];
    JoinedSplits(chunks[..s], chunks[s..]);
    JoinedSingles(stragglers);
    PickedAll(c, active);
    assert multiset(stragglers + Picked(c, active, false)) == multiset(stragglers) + multiset(Picked(c, active, false));
  }

  /** The list has the processes with an event below the horizon, each once, with their estimates. */
  ghost predicate ListsActive(config: seq<Lp>, horizon: nat, active: seq<Active>) {
    && (forall i: nat :: multiset(NodesIn(active))[i] == if i < |config| && Below(config[i].pending, horizon) then 1 else 0)
    && (forall k | 0 <= k < |active| :: active[k].node < |config| &&
          active[k].estimated == |set e | e in config[active[k].node].pending && e.key.time < horizon|)
  }

  lemma PartitionHolds(c: Classes, config: seq<Lp>, horizon: nat, active: seq<Active>, chunks: seq<seq<nat>>, u: Dispatch.Round)
    requires ValidClasses(c) && IsPartition(c, active, chunks, u) && ListsActive(config, horizon, active)
    ensures ChunksHold(config, chunks, u.stragglers + u.bulk, horizon)
  {
    hide IsPartition, NodesOf, NodesIn, Below;
    PartitionKeeps(c, active, chunks, u);
  }

  /** One dispatched round: what was cut, how, what the coordinator and the workers did, and the order in
      which the executed chunks were executed. */
  datatype Turn = Turn(active: seq<Active>, chunks: seq<seq<nat>>, u: Dispatch.Round, actions: seq<Dispatch.Action>, order: seq<nat>)

  /** The round was cut from the active processes, and these are the chunks executed in one of its schedules. */
  ghost predicate TurnOk(c: Classes, config: seq<Lp>, horizon: nat, t: Turn)
    requires ValidClasses(c)
  {
    && ListsActive(config, horizon, t.active) && IsPartition(c, t.active, t.chunks, t.u)
    && Dispatch.ValidRound(t.u) && DispatchRuns.Run(t.u, t.actions).Some?
    && Known(t.chunks, t.order) && multiset(t.order) == DispatchRuns.Run(t.u, t.actions).value.executed
  }

  /** What the executed chunks leave. */
  ghost function Left(m: Model, config: seq<Lp>, horizon: nat, capacity: Option<nat>, t: Turn): (r: Option<Round>)
    requires WellKeyed(config) && Known(t.chunks, t.order)
    ensures r.Some? ==> |r.value| == |config|
  {
    RunNodes(m, Start(config), NodesOf(t.chunks, t.order), horizon, capacity)
  }

  /** The turns lead from the configuration to the end: to a final configuration, or to a failure of a
      drain, of the barrier or of the round number. */
  ghost predicate Plays(c: Classes, m: Model, config: seq<Lp>, plan: Plan, budget: nat, turns: seq<Turn>, final: Option<seq<Lp>>)
    requires ValidClasses(c) && WellKeyed(config)
    decreases budget
  {
    if Ended(config, plan.runEnd) then turns == [] && final == Some(config)
    else if budget == 0 then turns == [] && final.None?
    else
      && turns != []
      && var horizon, t := Horizon(Frontier(config).value, plan.lookahead, plan.runEnd), turns[0];
         && TurnOk(c, config, horizon, t)
         && match Left(m, config, horizon, plan.capacity, t)
            case None => |turns| == 1 && final.None?
            case Some(ds) =>
              && Dispatch.Ended(t.u, DispatchRuns.Run(t.u, t.actions).value)
              && if !Accepts(ds, horizon) then |turns| == 1 && final.None?
                 else WellKeyed(Barrier(ds)) && Plays(c, m, Barrier(ds), plan, budget - 1, turns[1..], final)
  }

  /** A dispatched round is that of the executor, and fails where it fails. */
  lemma TurnIsRound(c: Classes, m: Model, config: seq<Lp>, horizon: nat, capacity: Option<nat>, t: Turn)
    requires ValidClasses(c) && WellKeyed(config) && TurnOk(c, config, horizon, t)
    ensures Left(m, config, horizon, capacity, t).None? ==> RunRound(m, config, horizon, capacity).None?
    ensures Dispatch.Ended(t.u, DispatchRuns.Run(t.u, t.actions).value) ==>
              RunRound(m, config, horizon, capacity) ==
              match Left(m, config, horizon, capacity, t)
              case None => None
              case Some(ds) => if Accepts(ds, horizon) then Some(Barrier(ds)) else None
  {
    hide RunNodes, NodesOf, RunRound, Accepts, Barrier, DispatchRuns.Run, Dispatch.Ended, ListsActive, IsPartition, ChunksHold,
      Dispatch.ValidRound, WellKeyed;
    PartitionHolds(c, config, horizon, t.active, t.chunks, t.u);
    FailureIsReal(m, config, horizon, capacity, t.chunks, t.u, t.actions, t.order);
    if Dispatch.Ended(t.u, DispatchRuns.Run(t.u, t.actions).value) {
      DispatchIsRound(m, config, horizon, capacity, t.chunks, t.u, t.actions, t.order);
    }
  }

  /** A run of dispatched rounds, whatever was cut how and scheduled how, ends as the run of the executor. */
  lemma {:induction false} DispatchIsExecutor(c: Classes, m: Model, config: seq<Lp>, plan: Plan, budget: nat, turns: seq<Turn>,
                                              final: Option<seq<Lp>>)
    requires ValidClasses(c) && WellKeyed(config) && Plays(c, m, config, plan, budget, turns, final)
    ensures RunRounds(m, config, plan, budget) == final
    decreases budget
  {
    hide TurnOk, Left, Accepts, Barrier, RunRound, Horizon, Frontier, DispatchRuns.Run, Dispatch.Ended;
    if !Ended(config, plan.runEnd) && budget > 0 {
      var horizon, t := Horizon(Frontier(config).value, plan.lookahead, plan.runEnd), turns[0];
      GetKnown(c, config, horizon, t);
      TurnIsRound(c, m, config, horizon, plan.capacity, t);
      var left := Left(m, config, horizon, plan.capacity, t);
      if left.Some? && Accepts(left.value, horizon) {
        DispatchIsExecutor(c, m, Barrier(left.value), plan, budget - 1, turns[1..], final);
      }
    }
  }

  lemma GetKnown(c: Classes, config: seq<Lp>, horizon: nat, t: Turn)
    requires ValidClasses(c) && TurnOk(c, config, horizon, t)
    ensures Known(t.chunks, t.order) && Dispatch.ValidRound(t.u) && DispatchRuns.Run(t.u, t.actions).Some?
  {
  }

  /** And so it ends in the states and pending events of the serial machine. */
  lemma DispatchIsSerial(c: Classes, m: Model, config: seq<Lp>, plan: Plan, turns: seq<Turn>, final: seq<Lp>)
    requires ValidClasses(c) && Rounds.Numbers(m) && GoodConfig(m, config)
    requires Plays(c, m, config, plan, U64_MAX, turns, Some(final))
    ensures exists n :: EndsSerially(m, config, plan.runEnd, n, final)
  {
    hide Plays, RunRounds, EndsSerially, Rounds.Numbers;
    DispatchIsExecutor(c, m, config, plan, U64_MAX, turns, Some(final));
    RoundsAreSerial(m, config, plan, U64_MAX, final);
  }

  // Every configuration can be played to an end.

  lemma {:induction false} CutExists(bulk: seq<nat>, size: nat) returns (chunks: seq<seq<nat>>)
    requires size > 0
    ensures Dispatch.Joined(chunks) == bulk
    ensures forall k | 0 <= k < |chunks| :: 0 < |chunks[k]| <= size
    ensures forall k | 0 <= k < |chunks| - 1 :: |chunks[k]| == size
    decreases |bulk|
  {
    if bulk == [] {
      chunks := [];
    } else if |bulk| <= size {
      chunks := [bulk];
      assert chunks[..0] == [];
    } else {
      var rest := CutExists(bulk[size..], size);
      chunks := [bulk[..size]] + rest;
      JoinedSplits([bulk[..size]], rest);
      assert [bulk[..size]][..0] == [];
      assert bulk == bulk[..size] + bulk[size..];
    }
  }

  lemma PartitionExists(c: Classes, active: seq<Active>) returns (chunks: seq<seq<nat>>, u: Dispatch.Round)
    requires ValidClasses(c)
    ensures IsPartition(c, active, chunks, u) && Dispatch.ValidRound(u)
  {
    hide Dispatch.Joined, Picked;
    var stragglers, bulk := Picked(c, active, true), Picked(c, active, false);
    var dedicated := Dispatch.DedicatedCount(c.workers, c.configured, |stragglers|, |bulk|);
    var pieces := CutExists(bulk, ChunkSize(c, |bulk|, dedicated));
    chunks := Singles(stragglers) + pieces;
    u := Dispatch.Round(c.workers, dedicated, CountFrom(0, |stragglers|), CountFrom(|stragglers|, |pieces|));
    assert chunks[..|stragglers|] == Singles(stragglers) && chunks[|stragglers|..] == pieces;
    PartitionIsValid(c, active, chunks, u);
  }

  /** The list for the first `n` processes. */
  ghost predicate ListsFirst(config: seq<Lp>, horizon: nat, active: seq<Active>, n: nat) {
    && (forall i: nat :: multiset(NodesIn(active))[i] == if i < n <= |config| && Below(config[i].pending, horizon) then 1 else 0)
    && (forall k | 0 <= k < |active| :: active[k].node < |config| &&
          active[k].estimated == |set e | e in config[active[k].node].pending && e.key.time < horizon|)
  }

  lemma {:induction false} ListExists(config: seq<Lp>, horizon: nat, n: nat) returns (active: seq<Active>)
    requires n <= |config|
    ensures ListsFirst(config, horizon, active, n)
  {
    if n == 0 {
      active := [];
      assert NodesIn(active) == [];
    } else {
      var few := ListExists(config, horizon, n - 1);
      active := few;
      if Below(config[n - 1].pending, horizon) {
        active := few + [Active(n - 1, |set e | e in config[n - 1].pending && e.key.time < horizon|)];
        NodesSnoc(active);
        assert active[..|active| - 1] == few;
      }
    }
  }

  lemma TurnExists(c: Classes, config: seq<Lp>, horizon: nat) returns (t: Turn)
    requires ValidClasses(c)
    ensures TurnOk(c, config, horizon, t) && Dispatch.Ended(t.u, DispatchRuns.Run(t.u, t.actions).value)
  {
    hide IsPartition, DispatchRuns.Run, Dispatch.Ended, Dispatch.ValidRound, NodesOf;
    var active := ListExists(config, horizon, |config|);
    var chunks, u := PartitionExists(c, active);
    assert DispatchRuns.Run(u, []).Some? by { StartsSomewhere(u); }
    var actions := DispatchProgress.RunsEnd(u, []);
    DispatchRuns.EveryChunkOnce(u, actions);
    t := Turn(active, chunks, u, actions, DispatchRuns.Run(u, actions).value.completed);
    PartitionHolds(c, config, horizon, active, chunks, u);
    assert multiset(u.stragglers + u.bulk) == multiset(u.stragglers) + multiset(u.bulk);
    KnownByCount(chunks, u.stragglers + u.bulk, t.order);
  }

  lemma StartsSomewhere(u: Dispatch.Round)
    ensures DispatchRuns.Run(u, []).Some?
  {
  }

  /** Whatever the classes, the dispatcher brings every configuration to an end. */
  lemma {:induction false} DispatchEnds(c: Classes, m: Model, config: seq<Lp>, plan: Plan, budget: nat)
    returns (turns: seq<Turn>, final: Option<seq<Lp>>)
    requires ValidClasses(c) && WellKeyed(config)
    ensures Plays(c, m, config, plan, budget, turns, final)
    decreases budget
  {
    hide TurnOk, Left, Barrier, RunRound, Horizon, Frontier, DispatchRuns.Run, Dispatch.Ended, UniqueKeys;
    if Ended(config, plan.runEnd) {
      turns, final := [], Some(config);
    } else if budget == 0 {
      turns, final := [], None;
    } else {
      var horizon := Horizon(Frontier(config).value, plan.lookahead, plan.runEnd);
      var t := TurnExists(c, config, horizon);
      GetKnown(c, config, horizon, t);
      var left := Left(m, config, horizon, plan.capacity, t);
      turns, final := [t], None;
      if left.Some? && Accepts(left.value, horizon) {
        BarrierIsKeyed(left.value, horizon, |config|);
        var rest, end := DispatchEnds(c, m, Barrier(left.value), plan, budget - 1);
        turns, final := [t] + rest, end;
        assert turns[1..] == rest;
      }
    }
  }

  lemma BarrierIsKeyed(ds: Round, horizon: nat, n: nat)
    requires Accepts(ds, horizon) && |ds| == n <= TIME_AFTER_U64_MAX
    ensures WellKeyed(Barrier(ds))
  {
  }

  /** A process with just as many events as the threshold is bulk, with one more it is a straggler; without a
      threshold there are none. */
  lemma ThresholdTells(c: Classes, a: Active, t: nat)
    requires c.threshold == Some(t)
    ensures a.estimated == t ==> !IsStraggler(c, a)
    ensures a.estimated == t + 1 ==> IsStraggler(c, a)
    ensures IsStraggler(c, a) ==> forall more: nat | a.estimated <= more :: IsStraggler(c, a.(estimated := more))
    ensures !IsStraggler(c.(threshold := None), a)
  {
  }

  /** Static chunks are the smallest with which every bulk worker gets one chunk at most. */
  lemma StaticSizeIsLeast(c: Classes, bulk: nat, dedicated: nat, size: nat)
    requires ValidClasses(c) && c.granularity.Static? && dedicated <= c.workers
    ensures bulk <= ChunkSize(c, bulk, dedicated) * BulkWorkers(c, dedicated)
    ensures 0 < size && bulk <= size * BulkWorkers(c, dedicated) ==> ChunkSize(c, bulk, dedicated) <= size
  {
    var w := BulkWorkers(c, dedicated);
    var q, r := (bulk + w - 1) / w, (bulk + w - 1) % w;
    assert bulk + w - 1 == q * w + r;
    if q == 0 {
      assert q * w == 0;
    }
    if 0 < size < q && bulk <= size * w {
      Gap(size, q, w);
      assert false;
    }
  }

  /** Bulk workers are those not set aside, or the only one there is. */
  lemma BulkWorkersAre(c: Classes, active: seq<Active>, chunks: seq<seq<nat>>, u: Dispatch.Round)
    requires ValidClasses(c) && IsPartition(c, active, chunks, u)
    ensures |Picked(c, active, false)| > 0 && c.workers > 1 ==> u.dedicated + BulkWorkers(c, u.dedicated) == c.workers
    ensures c.workers == 1 ==> BulkWorkers(c, u.dedicated) == 1
  {
    hide Dispatch.Joined, Picked;
  }

  /** With a fixed size every bulk chunk but the last has it, and the last has no more. */
  lemma FixedChunks(c: Classes, active: seq<Active>, chunks: seq<seq<nat>>, u: Dispatch.Round, k: nat)
    requires ValidClasses(c) && IsPartition(c, active, chunks, u) && c.granularity.Fixed?
    requires |Picked(c, active, true)| <= k < |chunks|
    ensures 0 < |chunks[k]| <= c.granularity.size
    ensures k < |chunks| - 1 ==> |chunks[k]| == c.granularity.size
  {
    hide Dispatch.Joined, Picked;
  }
}
