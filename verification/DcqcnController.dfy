/** The controller that a sender updates in place, and what every state it reaches keeps. */
module DcqcnController {
  import opened Basics
  import opened Events
  import opened Dcqcn
  import opened DcqcnEager

  /** Once alpha is zero, decay changes nothing. */
  lemma {:induction false} ZeroStaysZero(c: Config, n: nat)
    requires Valid(c)
    ensures Decay(c, 0, n) == 0
    decreases n
  {
    if n > 0 {
      ZeroStaysZero(c, n - 1);
    }
  }

  class ReactionPoint {
    const config: Config
    var alpha: U64
    var current: U64
    var target: U64
    var nextAlpha: U64
    var nextDecrease: U64
    var nextIncrease: U64
    var stage: nat
    var armed: bool
    var alphaPending: bool
    var decreasePending: bool
    var increaseArmed: bool

    ghost predicate Ready()
      reads this
    {
      Valid(config) && alpha <= ONE
    }

    ghost function View(): Controller
      reads this
    {
      Controller(alpha, current, target, nextAlpha, nextDecrease, nextIncrease, stage,
                 armed, alphaPending, decreasePending, increaseArmed)
    }

    constructor (config: Config)
      requires Valid(config)
      ensures Ready() && this.config == config && View() == Pristine(config)
    {
      this.config := config;
      alpha, current, target := ONE, config.initialRate, config.initialRate;
      nextAlpha, nextDecrease, nextIncrease, stage := 0, 0, 0, 0;
      armed, alphaPending, decreasePending, increaseArmed := false, false, false, false;
    }

    /** Applies every tick up to `time`; the decay loop stops early once alpha is zero. */
    method ApplyAlphaThrough(time: U64)
      requires Ready()
      modifies this`alpha, this`alphaPending, this`nextAlpha
      ensures Ready() && View() == AlphaThrough(config, old(View()), time)
    {
      if nextAlpha > time || nextAlpha == U64_MAX {
        return;
      }
      var ticks := (time - nextAlpha) / config.alphaInterval + 1;
      var a: U64 := AlphaTick(config, alpha, alphaPending);
      ghost var goal := Decay(config, a, ticks - 1);
      var remaining := ticks - 1;
      while remaining != 0 && a != 0
        invariant remaining >= 0 && a <= ONE && goal == Decay(config, a, remaining)
        decreases remaining
      {
        a := AlphaTick(config, a, false);
        remaining := remaining - 1;
      }
      ZeroStaysZero(config, remaining);
      alpha, alphaPending := a, false;
      nextAlpha := Grid(nextAlpha, config.alphaInterval, ticks);
    }

    method ApplyDecreaseCheck(time: U64)
      requires Ready()
      modifies this
      ensures Ready() && View() == DecreaseCheck(config, old(View()), time)
    {
      CutRoundsDown(current, alpha);
      nextDecrease := Sat(time + config.decreaseInterval);
      if config.clampTargetRate || stage != 0 {
        target := current;
      }
      current := Max(current - Reduction(current, alpha), config.minimumRate);
      stage, decreasePending, increaseArmed := 0, false, true;
      nextIncrease := Sat(time + config.increaseInterval);
    }

    method ApplyIncrease(time: U64)
      requires Ready()
      modifies this
      ensures Ready() && View() == IncreaseFire(config, old(View()), time)
      ensures old(stage) < config.fastRecoverySteps ==> target == old(target)
      ensures old(stage) == config.fastRecoverySteps ==> target == Min(config.maximumRate, old(target) + config.additiveRate)
      ensures old(stage) > config.fastRecoverySteps ==> target == Min(config.maximumRate, old(target) + config.hyperRate)
    {
      nextIncrease := Sat(time + config.increaseInterval);
      var steps := config.fastRecoverySteps;
      if stage == steps {
        target := Min(Sat(target + config.additiveRate), config.maximumRate);
      } else if stage > steps {
        target := Min(Sat(target + config.hyperRate), config.maximumRate);
      }
      current := current / 2 + target / 2;
      if stage <= steps {
        stage := stage + 1;
      }
    }

    /** Applies every rate-changing instant before `bound`. */
    method Advance(bound: U64)
      requires Ready()
      modifies this
      ensures Ready() && View() == Materialize(config, old(View()), bound)
    {
      ghost var goal := Materialize(config, View(), bound);
      while true
        invariant Ready() && goal == Materialize(config, View(), bound)
        decreases decreasePending, Left(bound, IncreaseInstant(View()))
      {
        var increase := if increaseArmed then nextIncrease else U64_MAX;
        var decrease := if decreasePending then nextDecrease else U64_MAX;
        if Min(increase, decrease) >= bound {
          return;
        }
        if increase <= decrease {
          ApplyIncrease(increase);
        } else {
          ApplyAlphaThrough(decrease);
          ApplyDecreaseCheck(decrease);
        }
      }
    }

    method Feedback(now: U64)
      requires Ready()
      modifies this
      ensures Ready() && View() == OnFeedback(config, old(View()), now)
    {
      if !armed {
        armed, alpha, alphaPending, decreasePending := true, ONE, false, true;
        nextAlpha := Sat(now + config.alphaInterval);
        nextDecrease := Sat(Sat(now + config.decreaseInterval) + 1);
        return;
      }
      Advance(now);
      if now > 0 {
        ApplyAlphaThrough(now - 1);
      }
      alphaPending := true;
      if !decreasePending {
        decreasePending := true;
        nextDecrease := FirstDecreaseAtOrAfter(config, nextDecrease, now);
      }
    }

    method Freeze(bound: U64)
      requires Ready()
      modifies this
      ensures Ready() && View() == Settle(config, old(View()), bound)
    {
      if !armed {
        return;
      }
      Advance(bound);
      if bound > 0 {
        ApplyAlphaThrough(bound - 1);
      }
      nextDecrease := FirstDecreaseAtOrAfter(config, nextDecrease, bound);
    }
  }

  /** The lowest rate: a cut stops at the minimum, and an average truncates each half. */
  function RateFloor(c: Config): nat { 2 * (c.minimumRate / 2) }

  /** The ranges every reachable state keeps. */
  ghost predicate Sound(c: Config, s: Controller) {
    && Valid(c)
    && s.alpha <= ONE
    && RateFloor(c) <= s.current <= c.maximumRate
    && RateFloor(c) <= s.target <= c.maximumRate
    && s.current <= Max(s.target, c.minimumRate)
    && s.stage <= c.fastRecoverySteps + 1
    && (!s.armed ==> s == Pristine(c))
  }

  lemma FireDueIsSound(c: Config, s: Controller)
    requires Sound(c, s) && s.armed
    ensures Sound(c, FireDue(c, s))
  {
    if IncreaseInstant(s) > DecreaseInstant(s) {
      var a := AlphaThrough(c, s, DecreaseInstant(s));
      CutRoundsDown(a.current, a.alpha);
    }
  }

  lemma {:induction false} MaterializeIsSound(c: Config, s: Controller, bound: U64)
    requires Sound(c, s)
    ensures Sound(c, Materialize(c, s, bound))
    decreases s.decreasePending, Left(bound, IncreaseInstant(s))
  {
    if Due(s) < bound {
      FireDueIsSound(c, s);
      MaterializeIsSound(c, FireDue(c, s), bound);
    }
  }

  lemma StepIsSound(c: Config, s: Controller, t: Transition)
    requires Sound(c, s)
    ensures Sound(c, LazyStep(c, s, t))
  {
    hide Materialize, AlphaBefore, FirstDecreaseAtOrAfter;
    MaterializeIsSound(c, s, t.at);
  }

  /** Every reachable controller state is in range. */
  lemma {:induction false} ReachableIsSound(c: Config, ts: seq<Transition>)
    requires Valid(c)
    ensures Sound(c, LazyRun(c, ts))
  {
    if ts != [] {
      ReachableIsSound(c, ts[..|ts| - 1]);
      StepIsSound(c, LazyRun(c, ts[..|ts| - 1]), ts[|ts| - 1]);
    }
  }

  /** Splitting a wait at an earlier bound changes nothing. */
  lemma {:induction false} MaterializeSplits(c: Config, s: Controller, early: U64, late: U64)
    requires Valid(c) && s.alpha <= ONE && early <= late
    ensures Materialize(c, Materialize(c, s, early), late) == Materialize(c, s, late)
    decreases s.decreasePending, Left(early, IncreaseInstant(s))
  {
    if Due(s) < early {
      MaterializeSplits(c, FireDue(c, s), early, late);
    }
  }

  /** Decay lowers every positive alpha exactly when the gain is positive. */
  lemma DecayLowers(c: Config, alpha: U64)
    requires Valid(c) && 0 < alpha <= ONE
    ensures AlphaTick(c, alpha, false) < alpha <==> c.g > 0
  {
    var product := (ONE - c.g) * alpha;
    assert product == ONE * alpha - c.g * alpha;
    if c.g > 0 {
      assert c.g * alpha >= 1 by {
        MulMonotone(alpha, 1, c.g);
      }
    }
  }

  /** Hence with a positive gain alpha reaches zero and stays there. */
  lemma {:induction false} DecayReachesZero(c: Config, alpha: U64, n: nat)
    requires Valid(c) && c.g > 0 && alpha <= ONE && alpha <= n
    ensures Decay(c, alpha, n) == 0
    decreases n
  {
    if alpha == 0 {
      ZeroStaysZero(c, n);
    } else {
      DecayLowers(c, alpha);
      DecayReachesZero(c, AlphaTick(c, alpha, false), n - 1);
    }
  }

  /** Without a gain alpha never decays. */
  lemma {:induction false} NoGainNoDecay(c: Config, alpha: U64, n: nat)
    requires Valid(c) && c.g == 0 && alpha <= ONE
    ensures Decay(c, alpha, n) == alpha
    decreases n
  {
    if n > 0 {
      NoGainNoDecay(c, alpha, n - 1);
    }
  }

  /** Decay reaches zero exactly with a positive gain, or from zero. */
  lemma DecayEnds(c: Config, alpha: U64)
    requires Valid(c) && alpha <= ONE
    ensures (exists n: nat :: Decay(c, alpha, n) == 0) <==> c.g > 0 || alpha == 0
  {
    if c.g > 0 {
      DecayReachesZero(c, alpha, alpha);
    }
    if alpha == 0 {
      assert Decay(c, alpha, 0) == 0;
    }
    if c.g == 0 && exists n: nat :: Decay(c, alpha, n) == 0 {
      var n: nat :| Decay(c, alpha, n) == 0;
      NoGainNoDecay(c, alpha, n);
    }
  }

  /** The floor the source documents as the lowest rate a controller can reach. */
  function DocumentedRateFloor(minimumRate: U64): nat {
    2 * ((if minimumRate == 0 then 0 else minimumRate - 1) / 2)
  }

  /** The documented floor is below every rate, and it is the true floor only of odd minima. */
  lemma DocumentedFloorIsSafe(c: Config, ts: seq<Transition>)
    requires Valid(c)
    ensures DocumentedRateFloor(c.minimumRate) <= LazyRun(c, ts).current
    ensures c.minimumRate % 2 == 0 ==> DocumentedRateFloor(c.minimumRate) < LazyRun(c, ts).current
  {
    ReachableIsSound(c, ts);
  }

  lemma CutAtMinimum(c: Config, s: Controller)
    requires Valid(c) && s.alpha <= ONE && s.current == s.target == c.minimumRate
    requires s.decreasePending && !s.increaseArmed && s.nextDecrease < U64_MAX
    ensures var r := FireDue(c, s);
            && Due(s) == s.nextDecrease && r.current == r.target == c.minimumRate && r.stage == 0
            && !r.decreasePending && r.increaseArmed && r.nextIncrease == Sat(s.nextDecrease + c.increaseInterval)
  {
    hide AlphaThrough;
    CutRoundsDown(s.current, AlphaThrough(c, s, s.nextDecrease).alpha);
  }

  lemma RaiseFromMinimum(c: Config, s: Controller, bound: U64)
    requires Valid(c) && s.alpha <= ONE && s.current == s.target == c.minimumRate && c.minimumRate % 2 == 1
    requires !s.decreasePending && s.increaseArmed && s.stage == 0 < c.fastRecoverySteps
    requires s.nextIncrease + 1 == bound
    ensures Materialize(c, s, bound).current == DocumentedRateFloor(c.minimumRate)
  {
    var r := FireDue(c, s);
    assert Due(s) == s.nextIncrease && Due(r) >= bound;
    assert Materialize(c, s, bound) == Materialize(c, r, bound) == r;
  }

  /** A controller that starts at an odd minimum does reach the documented floor. */
  lemma DocumentedFloorIsReached(c: Config)
    requires Valid(c) && c.minimumRate % 2 == 1 && c.initialRate == c.minimumRate && c.fastRecoverySteps > 0
    requires c.decreaseInterval + c.increaseInterval + 2 <= U64_MAX
    ensures var ts := [Feedback(0), Tick(c.decreaseInterval + c.increaseInterval + 2)];
            LazyRun(c, ts).current == DocumentedRateFloor(c.minimumRate)
  {
    var bound := c.decreaseInterval + c.increaseInterval + 2;
    var ts := [Feedback(0), Tick(bound)];
    assert ts[..1] == [Feedback(0)] && ts[..1][..0] == [];
    var armed := OnFeedback(c, Pristine(c), 0);
    assert LazyRun(c, ts[..1]) == armed;
    CutAtMinimum(c, armed);
    RaiseFromMinimum(c, FireDue(c, armed), bound);
  }
}
