/** How many rounds a run can take: each round starts at or past the horizon of the one before. */
module RoundBound {
  import opened Basics
  import opened Events
  import opened LogicalProcess
  import opened Rounds
  import opened Executor

  /** The rounds a run starts, whether or not it succeeds. */
  ghost function RoundsUsed(m: Model, config: seq<Lp>, plan: Plan, budget: nat): nat
    requires WellKeyed(config)
    decreases budget
  {
    if Ended(config, plan.runEnd) || budget == 0 then 0
    else
      match RunRound(m, config, Horizon(Frontier(config).value, plan.lookahead, plan.runEnd), plan.capacity)
      case None => 1
      case Some(next) => 1 + RoundsUsed(m, next, plan, budget - 1)
  }

  /** The planner's bound on the rounds of a run, on a 64-bit host. */
  function DerivedRoundBound(first: Option<U64>, lookahead: Option<nat>, runEnd: nat, eventBound: nat): nat
    requires lookahead.Some? ==> lookahead.value > 0
  {
    if first.None? then 1
    else if lookahead.None? then 2
    else
      var timeBound := Min(CeilDiv(Span(first.value, runEnd), lookahead.value) + 2, U64_MAX);
      Max(Min(timeBound, Min(eventBound + 2, U64_MAX)), 1)
  }

  /** The time from the first event to the end of the run. */
  function Span(first: U64, runEnd: nat): nat { if runEnd < first then 0 else runEnd - first }

  function CeilDiv(a: nat, b: nat): nat
    requires b > 0
  {
    (a + b - 1) / b
  }

  lemma AtMostCeilDiv(k: nat, a: nat, b: nat)
    requires b > 0 && k * b <= a + b - 1
    ensures k <= CeilDiv(a, b)
  {
    var q := CeilDiv(a, b);
    if q < k {
      TimesMore(q, k, b);
    }
  }

  lemma TimesMore(q: nat, k: nat, b: nat)
    requires q < k
    ensures q * b + b <= k * b
  {
    assert k * b == (k - q - 1) * b + q * b + b;
  }

  /** After a round nothing is pending below its horizon. */
  lemma FrontierPassesHorizon(m: Model, config: seq<Lp>, horizon: nat, capacity: Option<nat>)
    requires WellKeyed(config) && RunRound(m, config, horizon, capacity).Some?
    ensures var next := RunRound(m, config, horizon, capacity).value;
            Frontier(next).Some? ==> horizon <= Frontier(next).value
  {
    var ds := DrainAll(m, config, horizon, capacity).value;
    var next := Start(Barrier(ds));
    forall e | e in All(next)
      ensures horizon <= e.key.time
    {
      var i :| 0 <= i < |next| && e in Held(next[i]);
      if e in ds[i].lp.pending {
        assert !Below(DrainLp(m, i, config[i], horizon, capacity).value.lp.pending, horizon);
      } else {
        var j :| 0 <= j < |ds| && e in ds[j].outbox && e.target == i;
      }
    }
  }

  /** The rounds of every run fit in the time between the first event and the end. */
  lemma {:induction false} RoundsFitTheTime(m: Model, config: seq<Lp>, plan: Plan, budget: nat)
    requires WellKeyed(config) && plan.runEnd <= TIME_AFTER_U64_MAX
    requires Frontier(config).Some? && plan.lookahead.Some? && plan.lookahead.value > 0
    ensures RoundsUsed(m, config, plan, budget) * plan.lookahead.value <=
            Span(Frontier(config).value, plan.runEnd) + plan.lookahead.value - 1
    decreases budget
  {
    hide WellKeyed, RunRound, Frontier;
    if !Ended(config, plan.runEnd) && budget > 0 {
      var frontier, lookahead := Frontier(config).value, plan.lookahead.value;
      var horizon := Horizon(frontier, plan.lookahead, plan.runEnd);
      var round := RunRound(m, config, horizon, plan.capacity);
      if round.Some? {
        FrontierPassesHorizon(m, config, horizon, plan.capacity);
        if !Ended(round.value, plan.runEnd) {
          RoundsFitTheTime(m, round.value, plan, budget - 1);
          var rest := RoundsUsed(m, round.value, plan, budget - 1);
          assert (1 + rest) * lookahead == lookahead + rest * lookahead;
        }
      }
    }
  }

  /** Every round of a successful run spends at least one event. */
  lemma {:induction false} RoundsSpendEvents(m: Model, config: seq<Lp>, plan: Plan, budget: nat, final: seq<Lp>)
    returns (n: nat)
    requires Numbers(m) && GoodConfig(m, config) && RunRounds(m, config, plan, budget) == Some(final)
    requires plan.lookahead.Some? ==> plan.lookahead.value > 0
    requires plan.runEnd <= TIME_AFTER_U64_MAX
    ensures EndsSerially(m, config, plan.runEnd, n, final) && RoundsUsed(m, config, plan, budget) <= n
    decreases budget
  {
    hide GoodConfig, EndsSerially, RunRounds, Numbers, Ended, RunRound, Frontier;
    if Ended(config, plan.runEnd) {
      NoRoundLeft(m, config, plan, budget, final);
      n := 0;
    } else {
      var horizon, next, k := FirstRound(m, config, plan, budget, final);
      var rest := RoundsSpendEvents(m, next, plan, budget - 1, final);
      EndsCompose(m, config, horizon, plan.runEnd, k, next, rest, final);
      RoundSpends(m, config, plan, horizon, k, next);
      n := k + rest;
    }
  }

  lemma RoundSpends(m: Model, config: seq<Lp>, plan: Plan, horizon: nat, n: nat, next: seq<Lp>)
    requires !Ended(config, plan.runEnd) && (plan.lookahead.Some? ==> plan.lookahead.value > 0)
    requires horizon == Horizon(Frontier(config).value, plan.lookahead, plan.runEnd)
    requires EndsSerially(m, config, horizon, n, next)
    ensures n > 0
  {
    assert Below(All(Start(config)), horizon);
  }

  lemma {:induction false} RoundsFitTheBudget(m: Model, config: seq<Lp>, plan: Plan, budget: nat)
    requires WellKeyed(config)
    ensures RoundsUsed(m, config, plan, budget) <= budget
    decreases budget
  {
    hide WellKeyed, RunRound, Frontier;
    if !Ended(config, plan.runEnd) && budget > 0 {
      var round := RunRound(m, config, Horizon(Frontier(config).value, plan.lookahead, plan.runEnd), plan.capacity);
      if round.Some? {
        RoundsFitTheBudget(m, round.value, plan, budget - 1);
      }
    }
  }

  /** No successful run exceeds the planner's bound, if the event bound covers the events it runs. */
  lemma RoundsWithinDerivedBound(m: Model, config: seq<Lp>, plan: Plan, final: seq<Lp>, eventBound: nat)
    requires Numbers(m) && GoodConfig(m, config) && RunRounds(m, config, plan, U64_MAX) == Some(final)
    requires plan.lookahead.Some? ==> plan.lookahead.value > 0
    requires plan.runEnd <= TIME_AFTER_U64_MAX
    requires forall n: nat :: EndsSerially(m, config, plan.runEnd, n, final) ==> n <= eventBound
    ensures RoundsUsed(m, config, plan, U64_MAX) <=
            DerivedRoundBound(Frontier(config), plan.lookahead, plan.runEnd, eventBound)
  {
    hide Good, EndsSerially, RunRounds, RunRound, Frontier;
    var n := RoundsSpendEvents(m, config, plan, U64_MAX, final);
    RoundsFitTheBudget(m, config, plan, U64_MAX);
    if Frontier(config).Some? {
      if plan.lookahead.Some? {
        RoundsFitTheTime(m, config, plan, U64_MAX);
        AtMostCeilDiv(RoundsUsed(m, config, plan, U64_MAX), Span(Frontier(config).value, plan.runEnd), plan.lookahead.value);
      } else {
        OneRoundWithoutChannels(m, config, plan);
      }
    }
  }

  lemma OneRoundWithoutChannels(m: Model, config: seq<Lp>, plan: Plan)
    requires WellKeyed(config) && plan.lookahead.None? && plan.runEnd <= TIME_AFTER_U64_MAX
    ensures RoundsUsed(m, config, plan, U64_MAX) <= 1
  {
    if !Ended(config, plan.runEnd) {
      var round := RunRound(m, config, plan.runEnd, plan.capacity);
      if round.Some? {
        FrontierPassesHorizon(m, config, plan.runEnd, plan.capacity);
        assert RoundsUsed(m, round.value, plan, U64_MAX - 1) == 0;
      }
    }
  }

  /** The bound is no looser than the time and the events allow: it exceeds neither term by more than two. */
  lemma BoundIsTight(first: U64, lookahead: nat, runEnd: nat, eventBound: nat)
    requires lookahead > 0
    ensures var bound := DerivedRoundBound(Some(first), Some(lookahead), runEnd, eventBound);
            && 1 <= bound <= eventBound + 2
            && (first <= runEnd ==> (bound - 3) * lookahead < runEnd - first || bound <= 3)
            && (runEnd <= first ==> bound <= 2)
            && DerivedRoundBound(None, Some(lookahead), runEnd, eventBound) == 1
            && DerivedRoundBound(Some(first), None, runEnd, eventBound) == 2
  {
    var bound := DerivedRoundBound(Some(first), Some(lookahead), runEnd, eventBound);
    CeilIsLeast(Span(first, runEnd), lookahead);
    if bound > 3 {
      TimesAtMost(bound - 3, CeilDiv(Span(first, runEnd), lookahead) - 1, lookahead);
    }
  }

  lemma CeilIsLeast(a: nat, b: nat)
    requires b > 0
    ensures a == 0 ==> CeilDiv(a, b) == 0
    ensures a > 0 ==> CeilDiv(a, b) > 0 && (CeilDiv(a, b) - 1) * b < a
  {
    var q, r := (a + b - 1) / b, (a + b - 1) % b;
    assert a + b - 1 == q * b + r;
    if a > 0 {
      assert (q - 1) * b == q * b - b;
    } else if q > 0 {
      TimesAtMost(1, q, b);
    }
  }

  lemma TimesAtMost(a: nat, b: nat, k: nat)
    requires a <= b
    ensures a * k <= b * k
  {
    assert b * k == a * k + (b - a) * k;
    assert (b - a) * k >= 0;
  }
}
