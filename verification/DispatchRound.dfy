/** The dynamic dispatcher computes the round of the executor: whichever worker runs which chunk, and in
whatever order the chunks are run, the drains are the same. */
module DispatchRound {
  import opened Events
  import opened LogicalProcess
  import opened Rounds
  import opened Executor
  import Dispatch
  import DispatchRuns
  import Shard

  ghost predicate Known(chunks: seq<seq<nat>>, order: seq<nat>) { forall k | 0 <= k < |order| :: order[k] < |chunks| }

  /** The nodes of the chunks, in the order in which they are run. */
  ghost function NodesOf(chunks: seq<seq<nat>>, order: seq<nat>): seq<nat>
    requires Known(chunks, order)
  {
    if order == [] then [] else NodesOf(chunks, order[..|order| - 1]) + chunks[order[|order| - 1]]
  }

  lemma {:induction false} NodesSplit(chunks: seq<seq<nat>>, a: seq<nat>, b: seq<nat>)
    requires Known(chunks, a) && Known(chunks, b)
    ensures Known(chunks, a + b) && NodesOf(chunks, a + b) == NodesOf(chunks, a) + NodesOf(chunks, b)
  {
    if b == [] {
      assert a + b == a;
    } else {
      var n := |b| - 1;
      var all, last := a + b, b[n];
      assert all[..|all| - 1] == a + b[..n] && all[|all| - 1] == last;
      NodesSplit(chunks, a, b[..n]);
      assert NodesOf(chunks, all) == NodesOf(chunks, a + b[..n]) + chunks[last];
      assert NodesOf(chunks, b) == NodesOf(chunks, b[..n]) + chunks[last];
    }
  }

  /** One chunk out of the order takes its nodes out. */
  lemma NodesWithout(chunks: seq<seq<nat>>, a: seq<nat>, x: nat, b: seq<nat>)
    requires Known(chunks, a + [x] + b)
    ensures x < |chunks| && Known(chunks, a + b)
    ensures multiset(NodesOf(chunks, a + [x] + b)) == multiset(NodesOf(chunks, a + b)) + multiset(chunks[x])
  {
    var all := a + [x] + b;
    assert Known(chunks, a) by { assert forall k | 0 <= k < |a| :: a[k] == all[k]; }
    assert all[|a|] == x;
    assert Known(chunks, b) by { assert forall k | 0 <= k < |b| :: b[k] == all[|a| + 1 + k]; }
    assert NodesOf(chunks, [x]) == chunks[x];
    NodesSplit(chunks, a, [x]);
    NodesSplit(chunks, a + [x], b);
    NodesSplit(chunks, a, b);
  }

  lemma KnownByCount(chunks: seq<seq<nat>>, a: seq<nat>, b: seq<nat>)
    requires multiset(b) <= multiset(a) && Known(chunks, a)
    ensures Known(chunks, b)
  {
    forall k | 0 <= k < |b|
      ensures b[k] < |chunks|
    {
      assert b[k] in multiset(b);
    }
  }

  /** Fewer chunks have fewer nodes, in whatever order. */
  lemma {:induction false} FewerNodes(chunks: seq<seq<nat>>, a: seq<nat>, b: seq<nat>)
    requires multiset(a) <= multiset(b) && Known(chunks, b)
    ensures Known(chunks, a) && multiset(NodesOf(chunks, a)) <= multiset(NodesOf(chunks, b))
    decreases |a|
  {
    KnownByCount(chunks, b, a);
    if a != [] {
      hide NodesOf;
      var n := |a| - 1;
      var j := Without(a, b);
      NodesWithout(chunks, b[..j], a[n], b[j + 1..]);
      FewerNodes(chunks, a[..n], b[..j] + b[j + 1..]);
      NodesWithout(chunks, a[..n], a[n], []);
      assert a == a[..n] + [a[n]] + [] && a[..n] + [] == a[..n];
      MorePart(multiset(NodesOf(chunks, a[..n])), multiset(NodesOf(chunks, b[..j] + b[j + 1..])), multiset(chunks[a[n]]));
    }
  }

  lemma MorePart(a: multiset<nat>, b: multiset<nat>, x: multiset<nat>)
    requires a <= b
    ensures a + x <= b + x
  {
  }

  /** The nodes that are run do not depend on the order of the chunks. */
  lemma SameNodes(chunks: seq<seq<nat>>, a: seq<nat>, b: seq<nat>)
    requires multiset(a) == multiset(b) && Known(chunks, a)
    ensures Known(chunks, b) && multiset(NodesOf(chunks, a)) == multiset(NodesOf(chunks, b))
  {
    KnownByCount(chunks, a, b);
    FewerNodes(chunks, a, b);
    FewerNodes(chunks, b, a);
  }

  /** The last of `a` is somewhere in `b`, and without it `a` is still a part of `b`. */
  lemma Without(a: seq<nat>, b: seq<nat>) returns (j: nat)
    requires multiset(a) <= multiset(b) && a != []
    ensures j < |b| && b == b[..j] + [a[|a| - 1]] + b[j + 1..]
    ensures multiset(a[..|a| - 1]) <= multiset(b[..j] + b[j + 1..])
  {
    var n := |a| - 1;
    assert a[n] in multiset(a);
    j :| 0 <= j < |b| && b[j] == a[n];
    assert a == a[..n] + [a[n]] && b == b[..j] + [a[n]] + b[j + 1..];
    assert multiset(a) == multiset(a[..n]) + multiset([a[n]]);
    assert multiset(b) == multiset(b[..j] + b[j + 1..]) + multiset([a[n]]);
    Cancel(multiset(a[..n]), multiset(b[..j] + b[j + 1..]), multiset([a[n]]));
  }

  lemma Cancel(a: multiset<nat>, b: multiset<nat>, x: multiset<nat>)
    requires a + x <= b + x
    ensures a <= b
  {
    forall i | i in a
      ensures a[i] <= b[i]
    {
      assert (a + x)[i] <= (b + x)[i];
    }
  }

  /** Drains the listed processes one after the other. */
  ghost function RunNodes(m: Model, ds: Round, nodes: seq<nat>, horizon: nat, capacity: Option<nat>): (r: Option<Round>)
    requires |ds| <= TIME_AFTER_U64_MAX
    ensures r.Some? ==> |r.value| == |ds|
  {
    if nodes == [] then Some(ds)
    else
      match RunNodes(m, ds, nodes[..|nodes| - 1], horizon, capacity)
      case None => None
      case Some(r) =>
        var i := nodes[|nodes| - 1];
        if i >= |r| || !UniqueKeys(r[i].lp.pending) then None
        else
          match DrainLp(m, i, r[i].lp, horizon, capacity)
          case None => None
          case Some(d) => Some(r[i := d])
  }

  ghost predicate InRange(nodes: seq<nat>, n: nat) { forall k | 0 <= k < |nodes| :: nodes[k] < n }

  /** Each process is in the list at most once. */
  ghost predicate Apart(nodes: seq<nat>) { forall i: nat :: multiset(nodes)[i] <= 1 }

  lemma ApartInit(nodes: seq<nat>)
    requires nodes != [] && Apart(nodes)
    ensures Apart(nodes[..|nodes| - 1]) && nodes[|nodes| - 1] !in nodes[..|nodes| - 1]
  {
    var n := |nodes| - 1;
    assert nodes == nodes[..n] + [nodes[n]];
    forall i: nat
      ensures multiset(nodes[..n])[i] <= multiset(nodes)[i]
    {
    }
    CountTells(nodes[..n], nodes[n]);
    assert multiset(nodes)[nodes[n]] <= 1;
  }

  /** Process `i` after its drain, if it is in the list, or as it was. */
  ghost predicate Drained1(m: Model, config: seq<Lp>, nodes: seq<nat>, horizon: nat, capacity: Option<nat>, r: Round, i: nat)
    requires WellKeyed(config) && |r| == |config| && i < |config|
  {
    if i in nodes then DrainLp(m, i, config[i], horizon, capacity) == Some(r[i]) else r[i] == Drained(config[i], [])
  }

  ghost predicate AllDrained(m: Model, config: seq<Lp>, nodes: seq<nat>, horizon: nat, capacity: Option<nat>, r: Round)
    requires WellKeyed(config)
  {
    |r| == |config| && forall i | 0 <= i < |config| :: Drained1(m, config, nodes, horizon, capacity, r, i)
  }

  lemma OneMoreDrained(m: Model, config: seq<Lp>, few: seq<nat>, nodes: seq<nat>, x: nat, horizon: nat, capacity: Option<nat>,
                       r: Round, d: Drained)
    requires WellKeyed(config) && x < |config| && nodes == few + [x] && AllDrained(m, config, few, horizon, capacity, r)
    requires DrainLp(m, x, config[x], horizon, capacity) == Some(d)
    ensures AllDrained(m, config, nodes, horizon, capacity, r[x := d])
  {
    hide DrainLp;
    var next := r[x := d];
    forall i | 0 <= i < |config|
      ensures Drained1(m, config, nodes, horizon, capacity, next, i)
    {
      assert Drained1(m, config, few, horizon, capacity, r, i);
    }
  }

  /** Running distinct processes drains each of them from where the round found it. */
  lemma {:induction false} RunsEach(m: Model, config: seq<Lp>, nodes: seq<nat>, horizon: nat, capacity: Option<nat>)
    requires WellKeyed(config) && Apart(nodes) && InRange(nodes, |config|)
    ensures var r := RunNodes(m, Start(config), nodes, horizon, capacity);
            && (r.Some? <==> forall k | 0 <= k < |nodes| :: DrainLp(m, nodes[k], config[nodes[k]], horizon, capacity).Some?)
            && (r.Some? ==> AllDrained(m, config, nodes, horizon, capacity, r.value))
  {
    hide DrainLp, Apart;
    if nodes != [] {
      var few: seq<nat>, x: nat := nodes[..|nodes| - 1], nodes[|nodes| - 1];
      ApartInit(nodes);
      assert nodes == few + [x];
      assert forall k | 0 <= k < |few| :: few[k] == nodes[k];
      RunsEach(m, config, few, horizon, capacity);
      var r := RunNodes(m, Start(config), few, horizon, capacity);
      if r.Some? {
        assert Drained1(m, config, few, horizon, capacity, r.value, x);
        var d := DrainLp(m, x, config[x], horizon, capacity);
        if d.Some? {
          OneMoreDrained(m, config, few, nodes, x, horizon, capacity, r.value, d.value);
        }
      }
    }
  }

  /** The chunks hold the processes with an event below the horizon, each once. */
  ghost predicate ChunksHold(config: seq<Lp>, chunks: seq<seq<nat>>, numbers: seq<nat>, horizon: nat) {
    && Known(chunks, numbers)
    && forall i: nat :: multiset(NodesOf(chunks, numbers))[i] == if i < |config| && Below(config[i].pending, horizon) then 1 else 0
  }

  lemma CountTells(nodes: seq<nat>, i: nat)
    ensures i in nodes <==> multiset(nodes)[i] > 0
  {
    assert i in nodes <==> i in multiset(nodes);
  }

  /** Draining the active processes in any order is draining all of them. */
  lemma ActiveIsAll(m: Model, config: seq<Lp>, nodes: seq<nat>, horizon: nat, capacity: Option<nat>)
    requires WellKeyed(config)
    requires forall i: nat :: multiset(nodes)[i] == if i < |config| && Below(config[i].pending, horizon) then 1 else 0
    ensures RunNodes(m, Start(config), nodes, horizon, capacity) == DrainAll(m, config, horizon, capacity)
  {
    hide DrainLp, UniqueKeys, Below;
    forall i: nat
      ensures i in nodes <==> i < |config| && Below(config[i].pending, horizon)
    {
      CountTells(nodes, i);
    }
    assert forall k | 0 <= k < |nodes| :: nodes[k] in nodes;
    RunsEach(m, config, nodes, horizon, capacity);
    forall i | 0 <= i < |config| && i !in nodes
      ensures DrainLp(m, i, config[i], horizon, capacity) == Some(Drained(config[i], []))
    {
      Shard.IdleDrain(m, i, config[i], horizon, capacity);
    }
    var r, all := RunNodes(m, Start(config), nodes, horizon, capacity), DrainAll(m, config, horizon, capacity);
    if r.Some? {
      forall i | 0 <= i < |config|
        ensures DrainLp(m, i, config[i], horizon, capacity) == Some(r.value[i])
      {
        assert Drained1(m, config, nodes, horizon, capacity, r.value, i);
      }
      assert r.value == all.value;
    }
  }

  /** Whatever the dispatcher does, when its round has ended, the chunks that were executed, in whatever
      order, leave every process as the executor's drains do; and fail where they fail. */
  lemma DispatchIsRound(m: Model, config: seq<Lp>, horizon: nat, capacity: Option<nat>, chunks: seq<seq<nat>>, u: Dispatch.Round,
                        actions: seq<Dispatch.Action>, order: seq<nat>)
    requires WellKeyed(config) && Dispatch.ValidRound(u) && DispatchRuns.Run(u, actions).Some?
    requires Dispatch.Ended(u, DispatchRuns.Run(u, actions).value)
    requires ChunksHold(config, chunks, u.stragglers + u.bulk, horizon)
    requires multiset(order) == DispatchRuns.Run(u, actions).value.executed
    ensures Known(chunks, order)
    ensures RunNodes(m, Start(config), NodesOf(chunks, order), horizon, capacity) == DrainAll(m, config, horizon, capacity)
    ensures RunRound(m, config, horizon, capacity) ==
            match RunNodes(m, Start(config), NodesOf(chunks, order), horizon, capacity)
            case None => None
            case Some(ds) => if Accepts(ds, horizon) then Some(Barrier(ds)) else None
  {
    hide DispatchRuns.Run, Dispatch.Ended, Dispatch.ValidRound, RunNodes, DrainAll, Accepts, Barrier;
    DispatchRuns.EveryChunkOnce(u, actions);
    assert multiset(u.stragglers + u.bulk) == multiset(u.stragglers) + multiset(u.bulk);
    SameNodes(chunks, u.stragglers + u.bulk, order);
    ActiveIsAll(m, config, NodesOf(chunks, order), horizon, capacity);
  }

  /** A part of the active processes that cannot be drained shows that not all can. */
  lemma PartFails(m: Model, config: seq<Lp>, nodes: seq<nat>, horizon: nat, capacity: Option<nat>)
    requires WellKeyed(config) && RunNodes(m, Start(config), nodes, horizon, capacity).None?
    requires forall i: nat :: multiset(nodes)[i] <= if i < |config| && Below(config[i].pending, horizon) then 1 else 0
    ensures DrainAll(m, config, horizon, capacity).None?
  {
    hide DrainLp, UniqueKeys, Below;
    forall k | 0 <= k < |nodes|
      ensures nodes[k] < |config|
    {
      CountTells(nodes, nodes[k]);
    }
    RunsEach(m, config, nodes, horizon, capacity);
  }

  /** A chunk that fails, whenever it is executed, shows that the round of the executor fails. */
  lemma FailureIsReal(m: Model, config: seq<Lp>, horizon: nat, capacity: Option<nat>, chunks: seq<seq<nat>>, u: Dispatch.Round,
                      actions: seq<Dispatch.Action>, order: seq<nat>)
    requires WellKeyed(config) && Dispatch.ValidRound(u) && DispatchRuns.Run(u, actions).Some?
    requires ChunksHold(config, chunks, u.stragglers + u.bulk, horizon)
    requires multiset(order) == DispatchRuns.Run(u, actions).value.executed
    ensures Known(chunks, order)
    ensures RunNodes(m, Start(config), NodesOf(chunks, order), horizon, capacity).None? ==>
              RunRound(m, config, horizon, capacity).None?
  {
    hide DispatchRuns.Run, Dispatch.ValidRound, RunNodes, DrainAll, NodesOf;
    DispatchRuns.ExecutedIsPart(u, actions);
    assert multiset(u.stragglers + u.bulk) == multiset(u.stragglers) + multiset(u.bulk);
    FewerNodes(chunks, order, u.stragglers + u.bulk);
    if RunNodes(m, Start(config), NodesOf(chunks, order), horizon, capacity).None? {
      PartFails(m, config, NodesOf(chunks, order), horizon, capacity);
    }
  }
}
