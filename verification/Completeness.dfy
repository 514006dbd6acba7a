/** The other half of the executor's claim: when every transition keeps its lookahead, rounds never
abort on a run that the serial machine finishes. */
module Completeness {
  import opened Events
  import opened LogicalProcess
  import opened Rounds
  import opened Executor
  import Serial

  /** What a validated image promises of its transitions: a child is later than its parent, a remote
      one by at least the lookahead; targets exist; a process supersedes only its own timers. */
  ghost predicate Causal(m: Model, nodes: nat, lookahead: Option<nat>) {
    forall node: U64, s: State, e: Event {:trigger m.step(node, s, e)} ::
      node < nodes && e.target == node && m.step(node, s, e).Next? ==>
        && (forall c | c in m.step(node, s, e).children :: KeepsLookahead(c, e, nodes, lookahead))
        && (forall t | t in m.step(node, s, e).superseded :: t.target == node)
  }

  ghost predicate KeepsLookahead(child: Event, parent: Event, nodes: nat, lookahead: Option<nat>) {
    && child.target < nodes
    && KeyLess(parent.key, child.key)
    && (child.target != parent.target ==>
          lookahead.Some? && parent.key.time + lookahead.value <= child.key.time)
  }

  /** During a round nothing is before the frontier, and what was sent is past the horizon. */
  ghost predicate InRound(ds: Round, frontier: nat, horizon: nat) {
    && SendsAbove(ds, horizon)
    && (forall i, e {:trigger e in ds[i].lp.pending} | 0 <= i < |ds| && e in ds[i].lp.pending :: frontier <= e.key.time)
    && (forall i, e {:trigger e in ds[i].outbox} | 0 <= i < |ds| && e in ds[i].outbox :: e.target < |ds|)
  }

  /** The horizon of a round that starts at `frontier` is within its lookahead. */
  ghost predicate WithinLookahead(frontier: nat, lookahead: Option<nat>, horizon: nat) {
    lookahead.Some? ==> horizon <= frontier + lookahead.value || TIME_AFTER_U64_MAX < frontier + lookahead.value
  }

  lemma InRoundAfter(m: Model, ds: Round, i: U64, e: Event, kept: set<Event>, next: Drained,
                     frontier: nat, horizon: nat, lookahead: Option<nat>)
    requires Good(m, ds) && Causal(m, |ds|, lookahead) && InRound(ds, frontier, horizon)
    requires WithinLookahead(frontier, lookahead, horizon)
    requires i < |ds| && Moves(m, i, ds[i], e, kept, next)
    ensures InRound(ds[i := next], frontier, horizon)
  {
    var children := m.step(i, ds[i].lp.state, e).children;
    assert frontier <= e.key.time && e.target == i;
    forall x | x in next.lp.pending
      ensures frontier <= x.key.time
    {
      if x in children {
        assert KeepsLookahead(x, e, |ds|, lookahead);
      }
    }
    forall x | x in next.outbox
      ensures horizon <= x.key.time && x.target < |ds|
    {
      assert x in Elements(next.outbox);
      if x !in ds[i].outbox {
        assert KeepsLookahead(x, e, |ds|, lookahead);
      }
    }
  }

  /** When the serial machine runs the least event, its own process can run it. */
  lemma StepReflects(m: Model, ds: Round, i: U64, lookahead: Option<nat>)
    requires Numbers(m) && Causal(m, |ds|, lookahead) && Good(m, ds) && i < |ds|
    requires ds[i].lp.pending != {} && UniqueKeys(ds[i].lp.pending)
    requires UniqueKeys(All(ds)) && IsLeast(Least(ds[i].lp.pending), All(ds))
    requires Serial.Step(m, Flat(ds)).Some?
    ensures LocalStep(m, i, ds[i], None).Some?
  {
    var e := Least(ds[i].lp.pending);
    OthersAreElsewhere(m, ds, i);
    assert e in ds[i].lp.pending && e.target == i;
    var own, others := ds[i].lp.pending - {e}, Others(ds, i);
    assert All(ds) - {e} == own + others;
    var outcome := m.step(i, ds[i].lp.state, e);
    TimersAreLocal(own, others, outcome.superseded, i);
    var kept := RemoveTimers(own, outcome.superseded).value;
    assert kept <= All(ds);
    ChildrenEnqueue(m, ds, i, e, kept);
    Serial.RouteSucceeds(i, outcome.children, Drained(Lp(outcome.state, kept), ds[i].outbox));
  }

  ghost predicate Affords(budgets: seq<nat>, n: nat) {
    forall i | 0 <= i < |budgets| :: n <= budgets[i]
  }

  lemma SpendsOne(budgets: seq<nat>, i: nat, n: nat)
    requires i < |budgets| && 0 < n && Affords(budgets, n)
    ensures budgets[i] > 0 && Affords(budgets[i := budgets[i] - 1], n - 1)
  {
  }

  lemma DrainsFromAfter(m: Model, ds: Round, horizon: nat, budgets: seq<nat>, final: Round, i: U64)
    requires i < |ds| == |budgets| && budgets[i] > 0
    requires Good(m, ds) && UniqueKeys(ds[i].lp.pending)
    requires Below(ds[i].lp.pending, horizon) && LocalStep(m, i, ds[i], None).Some?
    requires Drains(m, ds[i := LocalStep(m, i, ds[i], None).value], horizon, None, budgets[i := budgets[i] - 1], final)
    ensures Drains(m, ds, horizon, None, budgets, final)
  {
    GoodIsUnique(m, ds);
    var after, less := ds[i := LocalStep(m, i, ds[i], None).value], budgets[i := budgets[i] - 1];
    forall j | 0 <= j < |ds|
      ensures DrainFrom(m, j, ds[j], horizon, None, budgets[j]) == Some(final[j])
    {
      assert DrainFrom(m, j, after[j], horizon, None, less[j]) == Some(final[j]);
    }
  }

  /** The rest of a serial run that ends after `n` events. */
  ghost predicate EndsIn(m: Model, ds: Round, end: nat, n: nat, g: Serial.Machine) {
    UniqueKeys(All(ds)) && Serial.Finishes(m, Flat(ds), end, n, g)
  }

  /** One event of the round, run both by its process and by the serial machine. */
  lemma RunBoth(m: Model, ds: Round, frontier: nat, horizon: nat, lookahead: Option<nat>, end: nat, n: nat, g: Serial.Machine)
    returns (i: U64)
    requires Numbers(m) && Causal(m, |ds|, lookahead) && Good(m, ds) && InRound(ds, frontier, horizon)
    requires WithinLookahead(frontier, lookahead, horizon) && horizon <= end
    requires EndsIn(m, ds, end, n, g) && Below(All(ds), horizon)
    ensures n > 0 && i < |ds| && UniqueKeys(ds[i].lp.pending) && Below(ds[i].lp.pending, horizon)
    ensures LocalStep(m, i, ds[i], None).Some?
    ensures var after := ds[i := LocalStep(m, i, ds[i], None).value];
            Good(m, after) && InRound(after, frontier, horizon) && EndsIn(m, after, end, n - 1, g)
  {
    i := LeastIsLocal(m, ds, horizon);
    assert Below(All(ds), end);
    StepReflects(m, ds, i, lookahead);
    StepCommutes(m, ds, i, None);
    var e, kept := LocalStepMoves(m, i, ds[i], None);
    InRoundAfter(m, ds, i, e, kept, LocalStep(m, i, ds[i], None).value, frontier, horizon, lookahead);
    GoodIsUnique(m, ds[i := LocalStep(m, i, ds[i], None).value]);
  }

  lemma DrainsAtOnce(m: Model, ds: Round, horizon: nat, budgets: seq<nat>)
    requires Good(m, ds) && |budgets| == |ds| && !Below(All(ds), horizon)
    ensures Drains(m, ds, horizon, None, budgets, ds)
  {
    GoodIsUnique(m, ds);
    forall i | 0 <= i < |ds|
      ensures !Below(ds[i].lp.pending, horizon)
    {
      forall e | e in ds[i].lp.pending
        ensures horizon <= e.key.time
      {
        assert e in Held(ds[i]);
      }
    }
  }

  /** A round of a run that the serial machine finishes drains every process. */
  lemma {:induction false} SerialRunsDrains(
    m: Model, ds: Round, frontier: nat, horizon: nat, lookahead: Option<nat>, budgets: seq<nat>,
    end: nat, n: nat, g: Serial.Machine)
    returns (final: Round, k: nat)
    requires Numbers(m) && Causal(m, |ds|, lookahead) && Good(m, ds) && InRound(ds, frontier, horizon)
    requires WithinLookahead(frontier, lookahead, horizon) && horizon <= end
    requires EndsIn(m, ds, end, n, g) && |budgets| == |ds| && Affords(budgets, n)
    ensures Drains(m, ds, horizon, None, budgets, final)
    ensures Good(m, final) && InRound(final, frontier, horizon)
    ensures k <= n && EndsIn(m, final, end, n - k, g)
    ensures Below(All(ds), horizon) ==> k > 0
    decreases n
  {
    hide *;
    if !Below(All(ds), horizon) {
      final, k := ds, 0;
      DrainsAtOnce(m, ds, horizon, budgets);
    } else {
      var i := RunBoth(m, ds, frontier, horizon, lookahead, end, n, g);
      SpendsOne(budgets, i, n);
      var after := ds[i := LocalStep(m, i, ds[i], None).value];
      final, k := SerialRunsDrains(m, after, frontier, horizon, lookahead, budgets[i := budgets[i] - 1], end, n - 1, g);
      DrainsFromAfter(m, ds, horizon, budgets, final, i);
      k := k + 1;
    }
  }

  lemma BarrierAccepts(m: Model, ds: Round, frontier: nat, horizon: nat)
    requires Good(m, ds) && InRound(ds, frontier, horizon)
    ensures Accepts(ds, horizon)
  {
    GoodIsUnique(m, ds);
    forall i | 0 <= i < |ds|
      ensures UniqueKeys(Merged(ds, i).pending)
    {
      forall e | e in Merged(ds, i).pending
        ensures e in All(ds)
      {
        var j := BarrierOrigin(ds, i, e);
      }
    }
  }

  lemma StartsInRound(m: Model, config: seq<Lp>, end: nat, horizon: nat)
    requires !Ended(config, end)
    ensures InRound(Start(config), Frontier(config).value, horizon)
    ensures Frontier(config).value < horizon ==> Below(All(Start(config)), horizon)
  {
    forall i, e | 0 <= i < |config| && e in Start(config)[i].lp.pending
      ensures Frontier(config).value <= e.key.time
    {
      assert e in Held(Start(config)[i]);
    }
  }

  /** Drains of every process from a barrier are the drains of the round. */
  lemma DrainsAreTheRound(m: Model, config: seq<Lp>, horizon: nat, ds: Round)
    requires WellKeyed(config)
    requires Drains(m, Start(config), horizon, None, seq(|config|, _ => U64_MAX), ds)
    ensures DrainAll(m, config, horizon, None) == Some(ds)
  {
    assert forall i | 0 <= i < |config| :: DrainLp(m, i, config[i], horizon, None) == Some(ds[i]);
    assert DrainAll(m, config, horizon, None).value == ds;
  }

  /** The first round of a run that the serial machine finishes succeeds and makes progress. */
  lemma RoundSucceeds(m: Model, config: seq<Lp>, plan: Plan, n: nat, g: Serial.Machine) returns (next: seq<Lp>, k: nat)
    requires Numbers(m) && Causal(m, |config|, plan.lookahead) && GoodConfig(m, config)
    requires !Ended(config, plan.runEnd) && (plan.lookahead.Some? ==> plan.lookahead.value > 0)
    requires EndsIn(m, Start(config), plan.runEnd, n, g) && n <= U64_MAX && plan.capacity.None?
    ensures RunRound(m, config, Horizon(Frontier(config).value, plan.lookahead, plan.runEnd), None) == Some(next)
    ensures GoodConfig(m, next) && 0 < k <= n && EndsIn(m, Start(next), plan.runEnd, n - k, g)
  {
    hide Good, InRound, EndsIn, Causal, Numbers, Drains, Accepts, Barrier, DrainAll, Frontier, Below, All;
    var frontier := Frontier(config).value;
    var horizon := Horizon(frontier, plan.lookahead, plan.runEnd);
    StartsInRound(m, config, plan.runEnd, horizon);
    var ds;
    ds, k := SerialRunsDrains(
      m, Start(config), frontier, horizon, plan.lookahead, seq(|config|, _ => U64_MAX), plan.runEnd, n, g);
    DrainsAreTheRound(m, config, horizon, ds);
    BarrierAccepts(m, ds, frontier, horizon);
    BarrierIsGood(m, ds, horizon);
    next := Barrier(ds);
    RunGoesOn(m, ds, horizon, plan.runEnd, n - k, g);
  }

  lemma RunGoesOn(m: Model, ds: Round, horizon: nat, end: nat, n: nat, g: Serial.Machine)
    requires Good(m, ds) && Accepts(ds, horizon) && EndsIn(m, ds, end, n, g)
    ensures EndsIn(m, Start(Barrier(ds)), end, n, g)
  {
    BarrierKeepsEvents(m, ds, horizon);
  }

  lemma EndedIsFinal(m: Model, config: seq<Lp>, end: nat, n: nat, g: Serial.Machine)
    requires Ended(config, end) && EndsIn(m, Start(config), end, n, g)
    ensures Flat(Start(config)) == g
  {
    assert !Below(All(Start(config)), end);
  }

  /** If every transition keeps its lookahead and the serial machine finishes within the 64-bit
      counters, the round executor finishes too, in the same states with the same pending events. */
  lemma {:induction false} SerialIsRounds(m: Model, config: seq<Lp>, plan: Plan, budget: nat, n: nat, g: Serial.Machine)
    returns (final: seq<Lp>)
    requires Numbers(m) && Causal(m, |config|, plan.lookahead) && GoodConfig(m, config)
    requires (plan.lookahead.Some? ==> plan.lookahead.value > 0) && plan.capacity.None?
    requires EndsIn(m, Start(config), plan.runEnd, n, g) && n <= budget <= U64_MAX
    ensures RunRounds(m, config, plan, budget) == Some(final) && Flat(Start(final)) == g
    decreases n
  {
    hide Good, EndsIn, Causal, Numbers, Ended, RunRound, Flat, Start;
    if Ended(config, plan.runEnd) {
      final := config;
      EndedIsFinal(m, config, plan.runEnd, n, g);
    } else {
      var next, k := RoundSucceeds(m, config, plan, n, g);
      final := SerialIsRounds(m, next, plan, budget - 1, n - k, g);
    }
  }
}
