/** The eager machine: it fires every alpha, increase and decrease instant, one at a time and in time
order. The lazy controller agrees with it at every transition. */
module DcqcnEager {
  import opened Basics
  import opened Events
  import opened Dcqcn

  /** One alpha tick, in the direct form of the moving average. */
  function EagerAlpha(c: Config, e: Controller): (r: Controller)
    requires Valid(c) && e.alpha <= ONE
    ensures r.alpha <= ONE
  {
    AlphaIdentity(c, e.alpha, e.alphaPending);
    e.(alpha := ((ONE - c.g) * e.alpha + if e.alphaPending then c.g * ONE else 0) / ONE,
       alphaPending := false,
       nextAlpha := Sat(e.nextAlpha + c.alphaInterval))
  }

  /** The direct form of a tick is the fixed-point form. */
  lemma AlphaIdentity(c: Config, alpha: U64, pending: bool)
    requires Valid(c) && alpha <= ONE
    ensures ((ONE - c.g) * alpha + if pending then c.g * ONE else 0) / ONE == AlphaTick(c, alpha, pending)
  {
  }

  /** One increase; the stage is not saturated. */
  function EagerIncrease(c: Config, e: Controller): Controller
    requires Valid(c)
  {
    var target :=
      if e.stage < c.fastRecoverySteps then e.target
      else Min(c.maximumRate, e.target + if e.stage == c.fastRecoverySteps then c.additiveRate else c.hyperRate);
    e.(nextIncrease := Sat(e.nextIncrease + c.increaseInterval),
       target := target,
       current := e.current / 2 + target / 2,
       stage := e.stage + 1)
  }

  /** One check of the decrease grid; it cuts only if a feedback arrived since the last check. */
  function EagerDecrease(c: Config, e: Controller): Controller
    requires Valid(c) && e.alpha <= ONE
  {
    var next := Sat(e.nextDecrease + c.decreaseInterval);
    if !e.decreasePending then e.(nextDecrease := next)
    else
      CutRoundsDown(e.current, e.alpha);
      e.(nextDecrease := next,
         target := if c.clampTargetRate || e.stage != 0 then e.current else e.target,
         current := Max(c.minimumRate, e.current * (TWO64 - e.alpha) / TWO64),
         stage := 0,
         decreasePending := false,
         increaseArmed := true,
         nextIncrease := Sat(e.nextDecrease + c.increaseInterval))
  }

  /** The earliest instant of the three timers. */
  function NextInstant(e: Controller): U64 {
    Min(e.nextAlpha, Min(IncreaseInstant(e), e.nextDecrease))
  }

  /** Fires the earliest instant: alpha first, then the increase, then the decrease. */
  function FireNext(c: Config, e: Controller): (r: Controller)
    requires Valid(c) && e.alpha <= ONE
    ensures r.alpha <= ONE
  {
    if e.nextAlpha == NextInstant(e) then EagerAlpha(c, e)
    else if IncreaseInstant(e) == NextInstant(e) then EagerIncrease(c, e)
    else EagerDecrease(c, e)
  }

  /** Every instant before `bound`. */
  function Advance(c: Config, e: Controller, bound: U64): (r: Controller)
    requires Valid(c) && e.alpha <= ONE
    ensures r.alpha <= ONE
    decreases Left(bound, e.nextAlpha) + Left(bound, e.nextDecrease), Left(bound, IncreaseInstant(e))
  {
    if !e.armed || NextInstant(e) >= bound then e else Advance(c, FireNext(c, e), bound)
  }

  /** A feedback at `now`, after every instant before it. */
  function EagerFeedback(c: Config, e: Controller, now: U64): Controller
    requires Valid(c) && e.alpha <= ONE
  {
    if !e.armed then
      e.(armed := true, alpha := ONE, alphaPending := false, decreasePending := true,
         nextAlpha := Sat(now + c.alphaInterval),
         nextDecrease := Sat(Sat(now + c.decreaseInterval) + 1))
    else Advance(c, e, now).(alphaPending := true, decreasePending := true)
  }

  /** What an alpha tick reads and writes. */
  datatype AlphaPart = AlphaPart(alpha: U64, pending: bool, next: U64)

  function AlphaOf(s: Controller): AlphaPart { AlphaPart(s.alpha, s.alphaPending, s.nextAlpha) }

  /** The alpha part after `k` ticks. */
  function AfterTicks(c: Config, a: AlphaPart, k: nat): (r: AlphaPart)
    requires Valid(c) && a.alpha <= ONE
    ensures r.alpha <= ONE
    decreases k
  {
    if k == 0 then a
    else
      var p := AfterTicks(c, a, k - 1);
      AlphaPart(AlphaTick(c, p.alpha, p.pending), false, Sat(p.next + c.alphaInterval))
  }

  /** `k` ticks from `first` all lie before `bound`. */
  ghost predicate TicksBefore(first: U64, interval: U64, k: nat, bound: nat) {
    k > 0 ==> first + (k - 1) * interval < bound
  }

  /** The eager machine has fired everything before `now`, which the lazy controller has put off:
      `k` alpha ticks, and `j` checks of the decrease grid that had nothing to cut. */
  ghost predicate Lags(c: Config, l: Controller, e: Controller, now: nat, k: nat, j: nat)
    requires Valid(c)
  {
    && l.armed && e.armed && l.alpha <= ONE && now <= U64_MAX
    && l.current == e.current && l.target == e.target
    && l.stage == Min(e.stage, c.fastRecoverySteps + 1)
    && l.decreasePending == e.decreasePending
    && l.increaseArmed == e.increaseArmed && l.nextIncrease == e.nextIncrease
    && AlphaOf(e) == AfterTicks(c, AlphaOf(l), k) && TicksBefore(l.nextAlpha, c.alphaInterval, k, now)
    && e.nextDecrease == Grid(l.nextDecrease, c.decreaseInterval, j)
    && TicksBefore(l.nextDecrease, c.decreaseInterval, j, now)
    && (l.decreasePending ==> j == 0)
    && now <= e.nextAlpha + 1 && now <= e.nextDecrease + 1 && (e.increaseArmed ==> now <= e.nextIncrease + 1)
  }

  /** The time of the next tick after `k` of them. */
  lemma {:induction false} TickTime(c: Config, a: AlphaPart, k: nat, bound: nat)
    requires Valid(c) && a.alpha <= ONE && TicksBefore(a.next, c.alphaInterval, k, bound) && bound <= U64_MAX
    ensures AfterTicks(c, a, k).next == Grid(a.next, c.alphaInterval, k)
    decreases k
  {
    if k > 0 {
      assert k * c.alphaInterval == (k - 1) * c.alphaInterval + c.alphaInterval;
      if k > 1 {
        assert (k - 1) * c.alphaInterval == (k - 2) * c.alphaInterval + c.alphaInterval;
      }
      TickTime(c, a, k - 1, bound);
    }
  }

  /** Ticks after the first are plain decay. */
  lemma {:induction false} TicksDecay(c: Config, a: AlphaPart, k: nat)
    requires Valid(c) && a.alpha <= ONE && k > 0
    ensures AfterTicks(c, a, k).alpha == Decay(c, AlphaTick(c, a.alpha, a.pending), k - 1)
    ensures !AfterTicks(c, a, k).pending
    decreases k
  {
    if k > 1 {
      TicksDecay(c, a, k - 1);
      DecaySnoc(c, AlphaTick(c, a.alpha, a.pending), k - 2);
    } else {
      assert AfterTicks(c, a, 0) == a;
    }
  }

  lemma {:induction false} DecaySnoc(c: Config, alpha: U64, n: nat)
    requires Valid(c) && alpha <= ONE
    ensures Decay(c, alpha, n + 1) == AlphaTick(c, Decay(c, alpha, n), false)
    decreases n
  {
    if n > 0 {
      DecaySnoc(c, AlphaTick(c, alpha, false), n - 1);
    }
  }

  lemma QuotientIs(x: nat, d: nat, q: nat)
    requires d > 0 && q * d <= x < (q + 1) * d
    ensures x / d == q
  {
    if x / d < q {
      MulMonotone(d, x / d + 1, q);
    } else if q < x / d {
      MulMonotone(d, q + 1, x / d);
    }
  }

  /** The number of ticks up to `time` is known from the next tick after it. */
  lemma TickCount(first: U64, interval: U64, k: nat, time: U64)
    requires interval > 0 && k > 0 && TicksBefore(first, interval, k, time + 1) && time < Grid(first, interval, k)
    ensures first <= time && (time - first) / interval + 1 == k
  {
    assert k * interval == (k - 1) * interval + interval;
    assert (k - 1) * interval >= 0;
    QuotientIs(time - first, interval, k - 1);
  }

  /** If the eager machine has ticked through `time`, catching up lands where it is. */
  lemma CatchUp(c: Config, l: Controller, k: nat, time: U64)
    requires Valid(c) && l.alpha <= ONE && time < U64_MAX
    requires TicksBefore(l.nextAlpha, c.alphaInterval, k, time + 1)
    requires time < AfterTicks(c, AlphaOf(l), k).next
    ensures AlphaOf(AlphaThrough(c, l, time)) == AfterTicks(c, AlphaOf(l), k)
  {
    TickTime(c, AlphaOf(l), k, time + 1);
    if k > 0 {
      TicksDecay(c, AlphaOf(l), k);
      TickCount(l.nextAlpha, c.alphaInterval, k, time);
    }
  }

  lemma AlphaStep(c: Config, l: Controller, e: Controller, now: nat, k: nat, j: nat)
    requires Valid(c) && Lags(c, l, e, now, k, j) && e.alpha <= ONE
    requires e.nextAlpha == NextInstant(e) < U64_MAX
    ensures Lags(c, l, EagerAlpha(c, e), e.nextAlpha + 1, k + 1, j)
  {
    TickTime(c, AlphaOf(l), k, now);
    AlphaIdentity(c, e.alpha, e.alphaPending);
    assert AfterTicks(c, AlphaOf(l), k + 1) == AlphaOf(EagerAlpha(c, e));
  }

  lemma IncreaseStep(c: Config, l: Controller, e: Controller, now: nat, k: nat, j: nat)
    requires Valid(c) && Lags(c, l, e, now, k, j)
    requires IncreaseInstant(e) == NextInstant(e) < U64_MAX && e.nextAlpha != NextInstant(e)
    ensures FireDue(c, l) == IncreaseFire(c, l, IncreaseInstant(e)) && Due(l) == IncreaseInstant(e)
    ensures Lags(c, FireDue(c, l), EagerIncrease(c, e), IncreaseInstant(e) + 1, k, j)
  {
    hide AfterTicks, AlphaThrough, DecreaseCheck, Reduction, Grid, TicksBefore;
    TicksLater(l.nextAlpha, c.alphaInterval, k, now, IncreaseInstant(e) + 1);
    TicksLater(l.nextDecrease, c.decreaseInterval, j, now, IncreaseInstant(e) + 1);
    NoInterval(l.nextDecrease, c.decreaseInterval);
    assert AlphaOf(FireDue(c, l)) == AlphaOf(l);
  }

  lemma IdleDecreaseStep(c: Config, l: Controller, e: Controller, now: nat, k: nat, j: nat)
    requires Valid(c) && Lags(c, l, e, now, k, j) && !e.decreasePending && e.alpha <= ONE
    requires e.nextDecrease == NextInstant(e) < U64_MAX
    ensures Lags(c, l, EagerDecrease(c, e), e.nextDecrease + 1, k, j + 1)
  {
    hide Grid, TicksBefore, AfterTicks;
    GridNext(l.nextDecrease, c.decreaseInterval, j);
    TicksLater(l.nextAlpha, c.alphaInterval, k, now, e.nextDecrease + 1);
    OneMoreTick(l.nextDecrease, c.decreaseInterval, j, e.nextDecrease);
    assert AlphaOf(EagerDecrease(c, e)) == AlphaOf(e);
  }

  lemma NoInterval(first: U64, interval: U64)
    ensures Grid(first, interval, 0) == first
  {
  }

  lemma GridNext(first: U64, interval: U64, j: nat)
    ensures Grid(first, interval, j + 1) == Sat(Grid(first, interval, j) + interval)
  {
    assert (j + 1) * interval == j * interval + interval;
  }

  lemma TicksLater(first: U64, interval: U64, k: nat, bound: nat, later: nat)
    requires TicksBefore(first, interval, k, bound) && bound <= later
    ensures TicksBefore(first, interval, k, later)
  {
  }

  lemma OneMoreTick(first: U64, interval: U64, j: nat, time: U64)
    requires time == Grid(first, interval, j) < U64_MAX
    ensures TicksBefore(first, interval, j + 1, time + 1)
  {
  }

  lemma CutStep(c: Config, l: Controller, e: Controller, now: nat, k: nat, j: nat)
    requires Valid(c) && Lags(c, l, e, now, k, j) && e.decreasePending && e.alpha <= ONE
    requires e.nextDecrease == NextInstant(e) < U64_MAX
    requires e.nextAlpha != NextInstant(e) && IncreaseInstant(e) != NextInstant(e)
    ensures FireDue(c, l) == DecreaseCheck(c, AlphaThrough(c, l, e.nextDecrease), e.nextDecrease) && Due(l) == e.nextDecrease
    ensures Lags(c, FireDue(c, l), EagerDecrease(c, e), e.nextDecrease + 1, 0, 0)
  {
    var time := e.nextDecrease;
    CatchUp(c, l, k, time);
    CutRoundsDown(e.current, e.alpha);
    assert AlphaOf(FireDue(c, l)) == AlphaOf(e);
    assert AlphaOf(EagerDecrease(c, e)) == AlphaOf(e);
  }

  lemma NothingDue(c: Config, l: Controller, e: Controller, now: nat, k: nat, j: nat, bound: U64)
    requires Valid(c) && Lags(c, l, e, now, k, j) && now <= bound <= NextInstant(e)
    ensures Due(l) >= bound && Lags(c, l, e, bound, k, j)
  {
  }

  lemma LagsArmed(c: Config, l: Controller, e: Controller, now: nat, k: nat, j: nat)
    requires Valid(c) && Lags(c, l, e, now, k, j)
    ensures e.armed && l.alpha <= ONE
  {
  }

  /** One instant of the eager machine: the lazy controller fires it too, or puts it off. */
  lemma InstantAgrees(c: Config, l: Controller, e: Controller, now: nat, k: nat, j: nat, bound: U64)
    returns (l': Controller, k': nat, j': nat)
    requires Valid(c) && Lags(c, l, e, now, k, j) && e.alpha <= ONE && l.alpha <= ONE && NextInstant(e) < bound
    ensures Lags(c, l', FireNext(c, e), NextInstant(e) + 1, k', j')
    ensures l'.alpha <= ONE && Materialize(c, l', bound) == Materialize(c, l, bound)
  {
    hide Lags, EagerAlpha, EagerIncrease, EagerDecrease, AlphaThrough, IncreaseFire, DecreaseCheck;
    if e.nextAlpha == NextInstant(e) {
      AlphaStep(c, l, e, now, k, j);
      l', k', j' := l, k + 1, j;
    } else if IncreaseInstant(e) == NextInstant(e) {
      IncreaseStep(c, l, e, now, k, j);
      l', k', j' := FireDue(c, l), k, j;
    } else if !e.decreasePending {
      IdleDecreaseStep(c, l, e, now, k, j);
      l', k', j' := l, k, j + 1;
    } else {
      CutStep(c, l, e, now, k, j);
      l', k', j' := FireDue(c, l), 0, 0;
    }
  }

  /** Firing an instant brings the end closer. */
  lemma InstantsRunOut(c: Config, e: Controller, bound: U64)
    requires Valid(c) && e.alpha <= ONE && NextInstant(e) < bound
    ensures var before, after := Left(bound, e.nextAlpha) + Left(bound, e.nextDecrease),
                                 Left(bound, FireNext(c, e).nextAlpha) + Left(bound, FireNext(c, e).nextDecrease);
            after < before || (after == before && Left(bound, IncreaseInstant(FireNext(c, e))) < Left(bound, IncreaseInstant(e)))
  {
    hide RaisedTarget, AlphaTick;
  }

  /** Firing every instant one by one, and firing only what changes a rate, stay together. */
  lemma {:induction false} AdvanceAgrees(c: Config, l: Controller, e: Controller, now: nat, k: nat, j: nat, bound: U64)
    returns (k': nat, j': nat)
    requires Valid(c) && Lags(c, l, e, now, k, j) && e.alpha <= ONE && now <= bound
    ensures Lags(c, Materialize(c, l, bound), Advance(c, e, bound), bound, k', j')
    ensures bound <= NextInstant(Advance(c, e, bound))
    decreases Left(bound, e.nextAlpha) + Left(bound, e.nextDecrease), Left(bound, IncreaseInstant(e))
  {
    hide Lags, FireNext, NextInstant, FireDue, Left, IncreaseInstant;
    LagsArmed(c, l, e, now, k, j);
    if NextInstant(e) >= bound {
      k', j' := k, j;
      NothingDue(c, l, e, now, k, j, bound);
    } else {
      var l', m, n := InstantAgrees(c, l, e, now, k, j, bound);
      InstantsRunOut(c, e, bound);
      k', j' := AdvanceAgrees(c, l', FireNext(c, e), NextInstant(e) + 1, m, n, bound);
    }
  }

  /** The first instant of the grid at or after `time` is where the eager machine stands. */
  lemma GridCount(c: Config, l: Controller, j: nat, time: U64)
    requires Valid(c) && TicksBefore(l.nextDecrease, c.decreaseInterval, j, time)
    requires time <= Grid(l.nextDecrease, c.decreaseInterval, j)
    ensures FirstDecreaseAtOrAfter(c, l.nextDecrease, time) == Grid(l.nextDecrease, c.decreaseInterval, j)
  {
    var first, interval := l.nextDecrease, c.decreaseInterval;
    if j > 0 {
      assert (j + 1) * interval == j * interval + interval;
      assert j * interval == (j - 1) * interval + interval;
      assert (j - 1) * interval >= 0;
      QuotientIs(time - first + interval - 1, interval, j);
    }
  }

  lemma AlphaCaughtUp(c: Config, l: Controller, e: Controller, time: U64, k: nat, j: nat)
    requires Valid(c) && Lags(c, l, e, time, k, j) && time <= NextInstant(e)
    ensures AlphaOf(AlphaBefore(c, l, time)) == AlphaOf(e)
  {
    if time > 0 {
      CatchUp(c, l, k, time - 1);
    } else {
      NoTicksBeforeZero(l.nextAlpha, c.alphaInterval, k);
    }
  }

  lemma NoTicksBeforeZero(first: U64, interval: U64, k: nat)
    requires TicksBefore(first, interval, k, 0)
    ensures k == 0
  {
    if k > 0 {
      assert 0 <= (k - 1) * interval by {
        MulMonotone(k - 1, 0, interval);
      }
    }
  }

  /** Everything before `time` applied, alpha included. */
  lemma CaughtUp(c: Config, l: Controller, e: Controller, time: U64, k: nat, j: nat)
    requires Valid(c) && Lags(c, l, e, time, k, j) && time <= NextInstant(e)
    ensures var a := AlphaBefore(c, l, time);
            && AlphaOf(a) == AlphaOf(e)
            && FirstDecreaseAtOrAfter(c, a.nextDecrease, time) == e.nextDecrease
            && (a.decreasePending ==> a.nextDecrease == e.nextDecrease)
  {
    hide AlphaBefore, AfterTicks;
    AlphaCaughtUp(c, l, e, time, k, j);
    GridCount(c, l, j, time);
  }

  /** Both machines before any feedback, or together up to what the lazy one put off. */
  ghost predicate Together(c: Config, l: Controller, e: Controller, now: nat)
    requires Valid(c)
  {
    if !l.armed then l == e == Pristine(c) else exists k, j :: Lags(c, l, e, now, k, j)
  }

  lemma FeedbackAgrees(c: Config, l: Controller, e: Controller, now: nat, at: U64)
    requires Valid(c) && Together(c, l, e, now) && l.alpha <= ONE && e.alpha <= ONE && now <= at
    ensures Together(c, OnFeedback(c, l, at), EagerFeedback(c, e, at), at)
  {
    var l', e' := OnFeedback(c, l, at), EagerFeedback(c, e, at);
    if l.armed {
      var k, j :| Lags(c, l, e, now, k, j);
      k, j := AdvanceAgrees(c, l, e, now, k, j, at);
      CaughtUp(c, Materialize(c, l, at), Advance(c, e, at), at, k, j);
    }
    assert AfterTicks(c, AlphaOf(l'), 0) == AlphaOf(e');
    assert Lags(c, l', e', at, 0, 0);
  }

  lemma TickAgrees(c: Config, l: Controller, e: Controller, now: nat, at: U64)
    requires Valid(c) && Together(c, l, e, now) && l.alpha <= ONE && e.alpha <= ONE && now <= at
    ensures Together(c, Materialize(c, l, at), Advance(c, e, at), at)
  {
    if l.armed {
      var k, j :| Lags(c, l, e, now, k, j);
      k, j := AdvanceAgrees(c, l, e, now, k, j, at);
    }
  }

  /** A settled controller is the eager machine, its stage saturated. */
  lemma SettleAgrees(c: Config, l: Controller, e: Controller, now: nat, at: U64)
    requires Valid(c) && Together(c, l, e, now) && l.alpha <= ONE && e.alpha <= ONE && now <= at
    ensures var e' := Advance(c, e, at);
            && Settle(c, l, at) == e'.(stage := Min(e'.stage, c.fastRecoverySteps + 1))
            && Together(c, Settle(c, l, at), e', at)
  {
    if l.armed {
      var k, j :| Lags(c, l, e, now, k, j);
      k, j := AdvanceAgrees(c, l, e, now, k, j, at);
      CaughtUp(c, Materialize(c, l, at), Advance(c, e, at), at, k, j);
      var l', e' := Settle(c, l, at), Advance(c, e, at);
      assert AfterTicks(c, AlphaOf(l'), 0) == AlphaOf(e');
      assert Lags(c, l', e', at, 0, 0);
    }
  }

  /** A transition of the flow, at its exclusive bound. */
  datatype Transition = Feedback(at: U64) | Tick(at: U64) | Freeze(at: U64)

  function LazyStep(c: Config, s: Controller, t: Transition): Controller
    requires Valid(c) && s.alpha <= ONE
  {
    match t
    case Feedback(at) => OnFeedback(c, s, at)
    case Tick(at) => Materialize(c, s, at)
    case Freeze(at) => Settle(c, s, at)
  }

  function EagerStep(c: Config, e: Controller, t: Transition): Controller
    requires Valid(c) && e.alpha <= ONE
  {
    match t
    case Feedback(at) => EagerFeedback(c, e, at)
    case Tick(at) => Advance(c, e, at)
    case Freeze(at) => Advance(c, e, at)
  }

  function LazyRun(c: Config, ts: seq<Transition>): (s: Controller)
    requires Valid(c)
    ensures s.alpha <= ONE
  {
    if ts == [] then Pristine(c) else LazyStep(c, LazyRun(c, ts[..|ts| - 1]), ts[|ts| - 1])
  }

  function EagerRun(c: Config, ts: seq<Transition>): (e: Controller)
    requires Valid(c)
    ensures e.alpha <= ONE
  {
    if ts == [] then Pristine(c) else EagerStep(c, EagerRun(c, ts[..|ts| - 1]), ts[|ts| - 1])
  }

  /** Bounds never go back. */
  ghost predicate Ordered(ts: seq<Transition>) {
    forall i, j | 0 <= i < j < |ts| :: ts[i].at <= ts[j].at
  }

  lemma {:induction false} RunsStayTogether(c: Config, ts: seq<Transition>)
    requires Valid(c) && Ordered(ts)
    ensures Together(c, LazyRun(c, ts), EagerRun(c, ts), if ts == [] then 0 else ts[|ts| - 1].at)
    ensures ts != [] && ts[|ts| - 1].Freeze? ==>
              var e := EagerRun(c, ts);
              LazyRun(c, ts) == e.(stage := Min(e.stage, c.fastRecoverySteps + 1))
  {
    if ts != [] {
      var init, t := ts[..|ts| - 1], ts[|ts| - 1];
      RunsStayTogether(c, init);
      var now := if init == [] then 0 else init[|init| - 1].at;
      var l, e := LazyRun(c, init), EagerRun(c, init);
      match t
      case Feedback(at) => FeedbackAgrees(c, l, e, now, at);
      case Tick(at) => TickAgrees(c, l, e, now, at);
      case Freeze(at) => SettleAgrees(c, l, e, now, at);
    }
  }

  /** For every sequence of transitions with bounds that never go back, the lazy controller has the
      rates, the flags, the increase timer and the saturated stage of the eager machine; a freeze
      makes alpha and every timer equal too. */
  lemma LazyIsEager(c: Config, ts: seq<Transition>)
    requires Valid(c) && Ordered(ts)
    ensures var l, e := LazyRun(c, ts), EagerRun(c, ts);
            && l.current == e.current && l.target == e.target
            && l.stage == Min(e.stage, c.fastRecoverySteps + 1)
            && l.armed == e.armed && l.decreasePending == e.decreasePending
            && l.increaseArmed == e.increaseArmed && l.nextIncrease == e.nextIncrease
            && (l.decreasePending ==> l.nextDecrease == e.nextDecrease)
            && (ts != [] && ts[|ts| - 1].Freeze? ==> l == e.(stage := l.stage))
  {
    RunsStayTogether(c, ts);
  }
}
