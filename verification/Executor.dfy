/** The round executor: choose a horizon, drain every process below it, deliver at the barrier.

The partition of processes over workers does not appear: a drain touches one process only, so any
partition runs the same drains. */
module Executor {
  import opened Events
  import opened LogicalProcess
  import opened Rounds
  import Serial

  /** The exclusive end of a round that starts at `frontier`. */
  function Horizon(frontier: U64, lookahead: Option<nat>, runEnd: nat): nat {
    var lookaheadEnd :=
      if lookahead.None? || frontier + lookahead.value > TIME_AFTER_U64_MAX then TIME_AFTER_U64_MAX
      else frontier + lookahead.value;
    if runEnd < lookaheadEnd then runEnd else lookaheadEnd
  }

  ghost predicate WellKeyed(config: seq<Lp>) {
    && |config| <= TIME_AFTER_U64_MAX
    && forall i | 0 <= i < |config| :: UniqueKeys(config[i].pending)
  }

  /** Every process drained below the horizon, if every drain succeeds. */
  ghost function DrainAll(m: Model, config: seq<Lp>, horizon: nat, capacity: Option<nat>): (r: Option<Round>)
    requires WellKeyed(config)
  {
    if forall i | 0 <= i < |config| :: DrainLp(m, i, config[i], horizon, capacity).Some? then
      Some(seq(|config|, i requires 0 <= i < |config| => DrainLp(m, i, config[i], horizon, capacity).value))
    else None
  }

  /** What the other processes sent to process `i` in this round. */
  ghost function Inbox(ds: Round, i: nat): set<Event> {
    set j, e | 0 <= j < |ds| && e in ds[j].outbox && e.target == i :: e
  }

  /** The process `i` after the barrier. */
  ghost function Merged(ds: Round, i: nat): Lp
    requires i < |ds|
  {
    Lp(ds[i].lp.state, ds[i].lp.pending + Inbox(ds, i))
  }

  /** The barrier accepts a batch only if every target exists, no event lies below the horizon and
      no key repeats. */
  ghost predicate Accepts(ds: Round, horizon: nat) {
    && SendsAbove(ds, horizon)
    && (forall j, e {:trigger e in ds[j].outbox} | 0 <= j < |ds| && e in ds[j].outbox :: e.target < |ds|)
    && (forall i | 0 <= i < |ds| :: UniqueKeys(Merged(ds, i).pending))
  }

  ghost function Barrier(ds: Round): seq<Lp> {
    seq(|ds|, i requires 0 <= i < |ds| => Merged(ds, i))
  }

  ghost function RunRound(m: Model, config: seq<Lp>, horizon: nat, capacity: Option<nat>): (r: Option<seq<Lp>>)
    requires WellKeyed(config)
    ensures r.Some? ==> WellKeyed(r.value) && |r.value| == |config|
  {
    match DrainAll(m, config, horizon, capacity)
    case None => None
    case Some(ds) => if Accepts(ds, horizon) then Some(Barrier(ds)) else None
  }

  ghost function Frontier(config: seq<Lp>): Option<U64> {
    MinTime(All(Start(config)))
  }

  datatype Plan = Plan(runEnd: nat, lookahead: Option<nat>, capacity: Option<nat>)

  /** Rounds until nothing is pending before the end. The round number is a 64-bit counter that
      must not overflow, so `budget` starts at `U64_MAX`. */
  ghost function RunRounds(m: Model, config: seq<Lp>, plan: Plan, budget: nat): Option<seq<Lp>>
    requires WellKeyed(config)
    decreases budget
  {
    if Ended(config, plan.runEnd) then Some(config)
    else if budget == 0 then None
    else
      match RunRound(m, config, Horizon(Frontier(config).value, plan.lookahead, plan.runEnd), plan.capacity)
      case None => None
      case Some(next) => RunRounds(m, next, plan, budget - 1)
  }

  ghost predicate GoodConfig(m: Model, config: seq<Lp>) {
    WellKeyed(config) && Good(m, Start(config))
  }

  /** Delivering at the barrier changes where events are, not what is pending. */
  lemma BarrierKeepsEvents(m: Model, ds: Round, horizon: nat)
    requires Good(m, ds) && Accepts(ds, horizon)
    ensures Flat(Start(Barrier(ds))) == Flat(ds)
  {
    var next := Start(Barrier(ds));
    forall e
      ensures e in All(next) <==> e in All(ds)
    {
      if e in All(next) {
        var i :| 0 <= i < |ds| && e in Held(next[i]);
        if e in Inbox(ds, i) {
          var j :| 0 <= j < |ds| && e in ds[j].outbox && e.target == i;
          assert e in Held(ds[j]);
        } else {
          assert e in Held(ds[i]);
        }
      }
      if e in All(ds) {
        var j :| 0 <= j < |ds| && e in Held(ds[j]);
        if e in ds[j].outbox {
          assert e in Inbox(ds, e.target);
          assert e in Held(next[e.target]);
        } else {
          assert e in Held(next[j]);
        }
      }
    }
    assert Flat(next).states == Flat(ds).states;
  }

  /** Every event a process holds after the barrier was held somewhere before it. */
  lemma BarrierOrigin(ds: Round, i: nat, e: Event) returns (j: nat)
    requires i < |ds| && e in Merged(ds, i).pending
    ensures j < |ds| && e in Held(ds[j])
    ensures e in ds[i].lp.pending ==> j == i
    ensures e !in ds[i].lp.pending ==> e.target == i
  {
    if e in ds[i].lp.pending {
      j := i;
    } else {
      j :| 0 <= j < |ds| && e in ds[j].outbox && e.target == i;
    }
  }

  lemma BarrierIsGood(m: Model, ds: Round, horizon: nat)
    requires Good(m, ds) && Accepts(ds, horizon)
    ensures GoodConfig(m, Barrier(ds))
  {
    var next := Start(Barrier(ds));
    forall i, e | 0 <= i < |ds| && e in Held(next[i])
      ensures e.target == i && e in All(ds)
      ensures e.key.originNode < |ds| ==> e.key.originSeq < m.cursor(next[e.key.originNode].lp.state)
    {
      var j := BarrierOrigin(ds, i, e);
      assert e in Held(ds[j]);
    }
    forall i, j, a, b | 0 <= i < |ds| && 0 <= j < |ds| && a in Held(next[i]) && b in Held(next[j]) && SameKey(a, b)
      ensures i == j && a == b
    {
      GoodIsUnique(m, ds);
      assert a in All(ds) && b in All(ds);
    }
    forall i, e | 0 <= i < |ds| && e in next[i].lp.pending
      ensures e.target == i
    {
      assert e in Held(next[i]);
    }
  }

  /** The serial machine, started where the processes are, stops after `n` events where they end. */
  ghost predicate EndsSerially(m: Model, config: seq<Lp>, end: nat, n: nat, final: seq<Lp>) {
    && UniqueKeys(All(Start(config)))
    && Serial.Finishes(m, Flat(Start(config)), end, n, Flat(Start(final)))
  }

  lemma EndsCompose(m: Model, a: seq<Lp>, horizon: nat, end: nat, n: nat, b: seq<Lp>, k: nat, c: seq<Lp>)
    requires EndsSerially(m, a, horizon, n, b) && EndsSerially(m, b, end, k, c) && horizon <= end
    ensures EndsSerially(m, a, end, n + k, c)
  {
    Serial.FinishesCompose(m, Flat(Start(a)), horizon, end, n, Flat(Start(b)), k, Flat(Start(c)));
  }

  /** A successful round is a stretch of the serial run. */
  lemma RoundIsSerial(m: Model, config: seq<Lp>, horizon: nat, capacity: Option<nat>) returns (n: nat)
    requires Numbers(m) && GoodConfig(m, config) && RunRound(m, config, horizon, capacity).Some?
    ensures GoodConfig(m, RunRound(m, config, horizon, capacity).value)
    ensures EndsSerially(m, config, horizon, n, RunRound(m, config, horizon, capacity).value)
  {
    var ds := DrainAll(m, config, horizon, capacity).value;
    n := DrainsRunSerially(m, Start(config), horizon, capacity, seq(|config|, _ => U64_MAX), ds);
    BarrierKeepsEvents(m, ds, horizon);
    BarrierIsGood(m, ds, horizon);
  }

  ghost predicate Ended(config: seq<Lp>, end: nat) {
    Frontier(config).None? || Frontier(config).value >= end
  }

  lemma NoRoundLeft(m: Model, config: seq<Lp>, plan: Plan, budget: nat, final: seq<Lp>)
    requires GoodConfig(m, config) && Ended(config, plan.runEnd) && RunRounds(m, config, plan, budget) == Some(final)
    ensures EndsSerially(m, config, plan.runEnd, 0, final)
  {
    GoodIsUnique(m, Start(config));
  }

  /** The first round of a successful run, and the run that is left. */
  lemma FirstRound(m: Model, config: seq<Lp>, plan: Plan, budget: nat, final: seq<Lp>)
    returns (horizon: nat, next: seq<Lp>, n: nat)
    requires Numbers(m) && GoodConfig(m, config) && RunRounds(m, config, plan, budget) == Some(final)
    requires !Ended(config, plan.runEnd)
    ensures budget > 0 && horizon == Horizon(Frontier(config).value, plan.lookahead, plan.runEnd) <= plan.runEnd
    ensures RunRound(m, config, horizon, plan.capacity) == Some(next) && GoodConfig(m, next)
    ensures EndsSerially(m, config, horizon, n, next)
    ensures RunRounds(m, next, plan, budget - 1) == Some(final)
  {
    horizon := Horizon(Frontier(config).value, plan.lookahead, plan.runEnd);
    next := RunRound(m, config, horizon, plan.capacity).value;
    n := RoundIsSerial(m, config, horizon, plan.capacity);
  }

  /** The executor's claim: a successful run of rounds ends in exactly the states and the pending
      events of the serial machine. */
  lemma {:induction false} RoundsAreSerial(m: Model, config: seq<Lp>, plan: Plan, budget: nat, final: seq<Lp>)
    requires Numbers(m) && GoodConfig(m, config) && RunRounds(m, config, plan, budget) == Some(final)
    ensures exists n :: EndsSerially(m, config, plan.runEnd, n, final)
    decreases budget
  {
    hide EndsSerially, RunRounds, GoodConfig, Numbers, Ended, Horizon, RunRound, Frontier;
    if Ended(config, plan.runEnd) {
      NoRoundLeft(m, config, plan, budget, final);
    } else {
      var horizon, next, n := FirstRound(m, config, plan, budget, final);
      RoundsAreSerial(m, next, plan, budget - 1, final);
      var k :| EndsSerially(m, next, plan.runEnd, k, final);
      EndsCompose(m, config, horizon, plan.runEnd, n, next, k, final);
    }
  }
}
