/** How a rate recovers: the target in closed form, for every run, and the first cut. */
module DcqcnRecovery {
  import opened Basics
  import opened Events
  import opened Dcqcn
  import opened DcqcnEager

  /** The controller recovers from a cut: increases come, no cut is waiting. */
  predicate Recovers(s: Controller) { s.armed && s.increaseArmed && !s.decreasePending && s.alpha <= ONE }

  /** Exactly `n` increases, the first at `first`, come before `bound`. */
  ghost predicate IncreasesBefore(first: U64, interval: U64, n: nat, bound: U64) {
    TicksBefore(first, interval, n, bound) && bound <= first + n * interval
  }

  /** `n` increases, each at its instant. */
  function Increased(c: Config, s: Controller, n: nat): (r: Controller)
    requires Valid(c)
    decreases n
  {
    if n == 0 then s
    else
      var before := Increased(c, s, n - 1);
      IncreaseFire(c, before, before.nextIncrease)
  }

  lemma {:induction false} IncreasedFirst(c: Config, s: Controller, n: nat)
    requires Valid(c) && n > 0
    ensures Increased(c, s, n) == Increased(c, IncreaseFire(c, s, s.nextIncrease), n - 1)
    decreases n
  {
    hide IncreaseFire;
    if n > 1 {
      IncreasedFirst(c, s, n - 1);
    } else {
      assert Increased(c, s, 0) == s;
    }
  }

  lemma IncreaseKeeps(c: Config, s: Controller)
    requires Valid(c) && Recovers(s)
    ensures Recovers(IncreaseFire(c, s, s.nextIncrease))
    ensures IncreaseFire(c, s, s.nextIncrease).nextIncrease == Sat(s.nextIncrease + c.increaseInterval)
  {
    hide RaisedTarget;
  }

  /** While a rate recovers, what happens before a bound is the increases before it. */
  lemma {:induction false} MaterializeIncreases(c: Config, s: Controller, n: nat, bound: U64)
    requires Valid(c) && Recovers(s) && IncreasesBefore(s.nextIncrease, c.increaseInterval, n, bound)
    ensures Materialize(c, s, bound) == Increased(c, s, n)
    decreases n
  {
    hide IncreaseFire, Increased, DecreaseCheck;
    if n == 0 {
      assert Materialize(c, s, bound) == s by { NoneBefore(c, s, bound); }
      IncreasedNone(c, s);
    } else {
      assert n * c.increaseInterval == (n - 1) * c.increaseInterval + c.increaseInterval;
      assert (n - 1) * c.increaseInterval >= 0 by { MulMonotone(n - 1, 0, c.increaseInterval); }
      var next := IncreaseFire(c, s, s.nextIncrease);
      IncreaseKeeps(c, s);
      assert FireDue(c, s) == next;
      if n > 1 {
        assert (n - 1) * c.increaseInterval == (n - 2) * c.increaseInterval + c.increaseInterval;
      }
      OneFewer(s.nextIncrease, c.increaseInterval, n, bound);
      MaterializeIncreases(c, next, n - 1, bound);
      IncreasedFirst(c, s, n);
    }
  }

  lemma NoneBefore(c: Config, s: Controller, bound: U64)
    requires Valid(c) && Recovers(s) && bound <= s.nextIncrease
    ensures Materialize(c, s, bound) == s
  {
  }

  lemma IncreasedNone(c: Config, s: Controller)
    requires Valid(c)
    ensures Increased(c, s, 0) == s
  {
  }

  lemma OneFewer(first: U64, interval: U64, n: nat, bound: U64)
    requires n > 0 && interval > 0 && IncreasesBefore(first, interval, n, bound)
    ensures IncreasesBefore(Sat(first + interval), interval, n - 1, bound)
  {
    assert n * interval == (n - 1) * interval + interval;
    if n > 1 {
      assert (n - 1) * interval == (n - 2) * interval + interval;
      assert (n - 2) * interval >= 0 by { MulMonotone(n - 2, 0, interval); }
    }
    assert (n - 1) * interval >= 0 by { MulMonotone(n - 1, 0, interval); }
  }

  function Product(k: nat, x: nat): nat {
    MulMonotone(k, 0, x);
    k * x
  }

  /** The target after `n` increases: as the cut left it for the steps of fast recovery, then one additive step,
      then a hyper step each, never above the maximum. */
  function RecoveredTarget(c: Config, target: U64, n: nat): nat {
    if n <= c.fastRecoverySteps then target
    else Min(c.maximumRate, target + c.additiveRate + Product(n - c.fastRecoverySteps - 1, c.hyperRate))
  }

  lemma OneMoreHyper(k: nat, hyper: nat)
    ensures Product(k + 1, hyper) == Product(k, hyper) + hyper && Product(0, hyper) == 0
  {
    assert (k + 1) * hyper == k * hyper + hyper;
  }

  /** One increase more. */
  lemma OneMoreIncrease(c: Config, s: Controller, target: U64, n: nat)
    requires Valid(c) && s.target == RecoveredTarget(c, target, n) && s.stage == Min(n, c.fastRecoverySteps + 1)
    ensures var r := IncreaseFire(c, s, s.nextIncrease);
            r.target == RecoveredTarget(c, target, n + 1) && r.stage == Min(n + 1, c.fastRecoverySteps + 1)
  {
    hide Product;
    OneMoreHyper(if n > c.fastRecoverySteps then n - c.fastRecoverySteps - 1 else 0, c.hyperRate);
  }

  /** The closed form. */
  lemma {:induction false} TargetIsRecovered(c: Config, s: Controller, n: nat)
    requires Valid(c) && s.stage == 0
    ensures Increased(c, s, n).target == RecoveredTarget(c, s.target, n)
    ensures Increased(c, s, n).stage == Min(n, c.fastRecoverySteps + 1)
    decreases n
  {
    hide IncreaseFire, RecoveredTarget;
    if n > 0 {
      TargetIsRecovered(c, s, n - 1);
      OneMoreIncrease(c, Increased(c, s, n - 1), s.target, n - 1);
    } else {
      NoneRecovered(c, s.target);
    }
  }

  lemma NoneRecovered(c: Config, target: U64)
    ensures RecoveredTarget(c, target, 0) == target
  {
  }

  /** Of runs: wherever a run has just been cut, `n` increases later and without feedback the target has
      recovered as the closed form says. */
  lemma RunsRecover(c: Config, ts: seq<Transition>, n: nat, at: U64)
    requires Valid(c) && Recovers(LazyRun(c, ts)) && LazyRun(c, ts).stage == 0
    requires IncreasesBefore(LazyRun(c, ts).nextIncrease, c.increaseInterval, n, at)
    ensures LazyRun(c, ts + [Tick(at)]).target == RecoveredTarget(c, LazyRun(c, ts).target, n)
  {
    hide Materialize;
    var s := LazyRun(c, ts);
    assert (ts + [Tick(at)])[..|ts|] == ts;
    MaterializeIncreases(c, s, n, at);
    TargetIsRecovered(c, s, n);
  }

  /** A cut: the rate loses its share by alpha, never below the minimum; the target falls to the rate before
      the cut, unless the rate was cut before without an increase since and the target is not clamped. */
  lemma CutThenRecover(c: Config, s: Controller, n: nat, at: U64)
    requires Valid(c) && s.armed && s.decreasePending && s.alpha <= ONE && s.nextDecrease < at
    requires IncreaseInstant(s) > s.nextDecrease
    requires s.nextDecrease + c.increaseInterval < U64_MAX
    requires IncreasesBefore(s.nextDecrease + c.increaseInterval, c.increaseInterval, n, at)
    ensures var a := AlphaThrough(c, s, s.nextDecrease).alpha;
            var left := Materialize(c, s, at);
            && left.target == RecoveredTarget(c, if c.clampTargetRate || s.stage != 0 then s.current else s.target, n)
            && (n == 0 ==> left.current == Max(c.minimumRate, s.current * (TWO64 - a) / TWO64))
  {
    hide Materialize, AlphaThrough, Decay;
    var caught := AlphaThrough(c, s, s.nextDecrease);
    var cut := DecreaseCheck(c, caught, s.nextDecrease);
    CutRoundsDown(s.current, caught.alpha);
    FiresOnce(c, s, at);
    MaterializeIncreases(c, cut, n, at);
    TargetIsRecovered(c, cut, n);
  }

  lemma FiresOnce(c: Config, s: Controller, at: U64)
    requires Valid(c) && s.alpha <= ONE && Due(s) < at
    ensures Materialize(c, s, at) == Materialize(c, FireDue(c, s), at)
  {
  }

  /** The first feedback: until one nanosecond past the decrease interval the rate stays; then it is cut by
      what one has decayed to. */
  lemma FirstCut(c: Config, at: U64, bound: U64)
    requires Valid(c) && at + c.decreaseInterval + 1 + c.increaseInterval < U64_MAX && at <= bound
    ensures var left := LazyRun(c, [Feedback(at), Tick(bound)]);
            var cut := at + c.decreaseInterval + 1;
            && (bound <= cut ==> left.current == left.target == c.initialRate)
            && (cut < bound <= cut + c.increaseInterval ==>
                  && left.target == c.initialRate
                  && left.current ==
                     Max(c.minimumRate, c.initialRate * (TWO64 - Decay(c, ONE, (c.decreaseInterval + 1) / c.alphaInterval)) / TWO64))
  {
    hide Materialize, Decay;
    var s := OnFeedback(c, Pristine(c), at);
    var ts := [Feedback(at), Tick(bound)];
    assert ts[..1] == [Feedback(at)] && ts[..1][..0] == [];
    assert LazyRun(c, ts[..1]) == s;
    if bound <= at + c.decreaseInterval + 1 {
      NothingYet(c, s, bound);
    } else if bound <= at + c.decreaseInterval + 1 + c.increaseInterval {
      CutThenRecover(c, s, 0, bound);
      DecayedBy(c, s, at);
    }
  }

  lemma NothingYet(c: Config, s: Controller, bound: U64)
    requires Valid(c) && s.alpha <= ONE && bound <= Due(s)
    ensures Materialize(c, s, bound) == s
  {
  }

  /** Alpha at the first cut. */
  lemma DecayedBy(c: Config, s: Controller, at: U64)
    requires Valid(c) && s.alpha == ONE && !s.alphaPending && at + c.decreaseInterval + 1 < U64_MAX
    requires s.nextAlpha == Sat(at + c.alphaInterval) && s.nextDecrease == at + c.decreaseInterval + 1
    ensures AlphaThrough(c, s, s.nextDecrease).alpha == Decay(c, ONE, (c.decreaseInterval + 1) / c.alphaInterval)
  {
    var ticks := (c.decreaseInterval + 1) / c.alphaInterval;
    if s.nextAlpha > s.nextDecrease {
      QuotientIs(c.decreaseInterval + 1, c.alphaInterval, 0);
    } else {
      QuotientStep(c.decreaseInterval + 1, c.alphaInterval);
    }
  }

  lemma QuotientStep(x: nat, d: nat)
    requires 0 < d <= x
    ensures (x - d) / d + 1 == x / d
  {
    var q := x / d;
    assert x == q * d + x % d;
    assert (q - 1) * d == q * d - d;
    QuotientIs(x - d, d, q - 1);
  }
}
