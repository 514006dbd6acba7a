/** The DCQCN reaction point with lazy timers, in the arithmetic of the source: Q63 fractions,
64-bit words and saturation at the last instant, which is never reached. */
module Dcqcn {
  import opened Basics
  import opened Events

  type U32 = x: int | 0 <= x < 0x1_0000_0000

  /** `alpha = 1` in Q63. */
  const ONE: U64 := 0x8000_0000_0000_0000
  const TWO64: nat := 0x1_0000_0000_0000_0000

  datatype Config = Config(
    initialRate: U64, minimumRate: U64, maximumRate: U64, additiveRate: U64, hyperRate: U64, g: U64,
    alphaInterval: U64, decreaseInterval: U64, increaseInterval: U64, fastRecoverySteps: U32,
    clampTargetRate: bool)

  /** The configurations a controller is created with. */
  predicate Valid(c: Config) {
    && 3 <= c.minimumRate <= c.initialRate <= c.maximumRate
    && c.g <= ONE
    && c.alphaInterval > 0 && c.decreaseInterval > 0 && c.increaseInterval > 0
    && c.fastRecoverySteps < 0xffff_ffff
  }

  datatype Controller = Controller(
    alpha: U64, current: U64, target: U64,
    nextAlpha: U64, nextDecrease: U64, nextIncrease: U64,
    stage: nat,
    armed: bool, alphaPending: bool, decreasePending: bool, increaseArmed: bool)

  function Pristine(c: Config): Controller {
    Controller(ONE, c.initialRate, c.initialRate, 0, 0, 0, 0, false, false, false, false)
  }

  function Sat(x: nat): U64 { if x < U64_MAX then x else U64_MAX }

  /** The instant `n` intervals after `first`. */
  function Grid(first: U64, interval: U64, n: nat): U64 {
    assert n * interval >= 0;
    Sat(first + n * interval)
  }

  /** `floor(a * b / 2^63)`. */
  function MulShr63(a: U64, b: U64): (r: nat) { a * b / ONE }

  lemma MulShr63Bound(a: U64, b: U64)
    requires b <= ONE
    ensures MulShr63(a, b) <= a
  {
    assert a * b <= a * ONE by {
      MulMonotone(a, b, ONE);
    }
    DivMonotone(a * b, a * ONE, ONE);
  }

  lemma MulMonotone(a: nat, b: nat, c: nat)
    requires b <= c
    ensures a * b <= a * c
  {
    assert a * c == a * b + a * (c - b);
  }

  lemma DivMonotone(a: nat, b: nat, d: nat)
    requires a <= b && d > 0
    ensures a / d <= b / d
  {
    if b / d < a / d {
      MulMonotone(d, b / d + 1, a / d);
    }
  }

  /** One alpha tick, given whether a feedback arrived since the last one. */
  function AlphaTick(c: Config, alpha: U64, pending: bool): (r: U64)
    requires Valid(c) && alpha <= ONE
    ensures r <= ONE
  {
    MulShr63Bound(ONE - c.g, alpha);
    MulShr63(ONE - c.g, alpha) + if pending then c.g else 0
  }

  /** `n` ticks without feedback. */
  function Decay(c: Config, alpha: U64, n: nat): (r: U64)
    requires Valid(c) && alpha <= ONE
    ensures r <= ONE
    decreases n
  {
    if n == 0 then alpha else Decay(c, AlphaTick(c, alpha, false), n - 1)
  }

  /** Every alpha tick up to and including `time`. */
  function AlphaThrough(c: Config, s: Controller, time: U64): (r: Controller)
    requires Valid(c) && s.alpha <= ONE
    ensures r.alpha <= ONE
    ensures r == s.(alpha := r.alpha, alphaPending := r.alphaPending, nextAlpha := r.nextAlpha)
  {
    if s.nextAlpha > time || s.nextAlpha == U64_MAX then s
    else
      var ticks := (time - s.nextAlpha) / c.alphaInterval + 1;
      s.(alpha := Decay(c, AlphaTick(c, s.alpha, s.alphaPending), ticks - 1),
         alphaPending := false,
         nextAlpha := Grid(s.nextAlpha, c.alphaInterval, ticks))
  }

  /** Every alpha tick before `bound`. */
  function AlphaBefore(c: Config, s: Controller, bound: U64): (r: Controller)
    requires Valid(c) && s.alpha <= ONE
    ensures r.alpha <= ONE
    ensures r == s.(alpha := r.alpha, alphaPending := r.alphaPending, nextAlpha := r.nextAlpha)
  {
    if bound == 0 then s else AlphaThrough(c, s, bound - 1)
  }

  /** What a cut takes from a rate: `ceil(rate * alpha / 2^64)`. */
  function Reduction(rate: U64, alpha: U64): nat {
    var product := rate * alpha;
    product / TWO64 + if product % TWO64 != 0 then 1 else 0
  }

  /** A cut rounds the remaining rate down. */
  lemma CutRoundsDown(rate: U64, alpha: U64)
    requires alpha <= ONE
    ensures Reduction(rate, alpha) <= rate
    ensures rate - Reduction(rate, alpha) == rate * (TWO64 - alpha) / TWO64
  {
    var product := rate * alpha;
    var q, r := product / TWO64, product % TWO64;
    assert rate * (TWO64 - alpha) == rate * TWO64 - product;
    assert product <= rate * TWO64 by {
      MulMonotone(rate, alpha, TWO64);
    }
    assert rate * TWO64 - product == (rate - q) * TWO64 - r;
  }

  /** The decrease check at an instant where a decrease is pending. */
  function DecreaseCheck(c: Config, s: Controller, time: U64): Controller
    requires Valid(c) && s.alpha <= ONE
  {
    CutRoundsDown(s.current, s.alpha);
    s.(nextDecrease := Sat(time + c.decreaseInterval),
       target := if c.clampTargetRate || s.stage != 0 then s.current else s.target,
       current := Max(s.current - Reduction(s.current, s.alpha), c.minimumRate),
       stage := 0,
       decreasePending := false,
       increaseArmed := true,
       nextIncrease := Sat(time + c.increaseInterval))
  }

  /** The rate-increase timer. */
  function IncreaseFire(c: Config, s: Controller, time: U64): Controller
    requires Valid(c)
  {
    var target := RaisedTarget(c, s);
    s.(nextIncrease := Sat(time + c.increaseInterval),
       target := target,
       current := s.current / 2 + target / 2,
       stage := if s.stage <= c.fastRecoverySteps then s.stage + 1 else s.stage)
  }

  /** Fast recovery leaves the target; the next step adds to it; later ones add more. */
  function RaisedTarget(c: Config, s: Controller): U64 {
    if s.stage == c.fastRecoverySteps then Min(Sat(s.target + c.additiveRate), c.maximumRate)
    else if s.stage > c.fastRecoverySteps then Min(Sat(s.target + c.hyperRate), c.maximumRate)
    else s.target
  }

  /** The first instant of the decrease grid at or after `time`. */
  function FirstDecreaseAtOrAfter(c: Config, anchor: U64, time: U64): U64
    requires Valid(c)
  {
    if anchor >= time || anchor == U64_MAX then anchor
    else
      var steps := (time - anchor + c.decreaseInterval - 1) / c.decreaseInterval;
      Grid(anchor, c.decreaseInterval, steps)
  }

  function IncreaseInstant(s: Controller): U64 { if s.increaseArmed then s.nextIncrease else U64_MAX }

  function DecreaseInstant(s: Controller): U64 { if s.decreasePending then s.nextDecrease else U64_MAX }

  /** The earliest rate-changing instant. */
  function Due(s: Controller): U64 { Min(IncreaseInstant(s), DecreaseInstant(s)) }

  /** One rate-changing instant, with the alpha ticks a cut reads. */
  function FireDue(c: Config, s: Controller): (r: Controller)
    requires Valid(c) && s.alpha <= ONE
    ensures r.alpha <= ONE && r.armed == s.armed
  {
    if IncreaseInstant(s) <= DecreaseInstant(s) then IncreaseFire(c, s, IncreaseInstant(s))
    else DecreaseCheck(c, AlphaThrough(c, s, DecreaseInstant(s)), DecreaseInstant(s))
  }

  function Left(bound: U64, instant: U64): nat { if instant < bound then bound - instant else 0 }

  /** Every rate-changing instant before `bound`. */
  function Materialize(c: Config, s: Controller, bound: U64): (r: Controller)
    requires Valid(c) && s.alpha <= ONE
    ensures r.alpha <= ONE && r.armed == s.armed
    decreases s.decreasePending, Left(bound, IncreaseInstant(s))
  {
    if Due(s) >= bound then s else Materialize(c, FireDue(c, s), bound)
  }

  /** A feedback at `now`, after every instant before it. */
  function OnFeedback(c: Config, s: Controller, now: U64): Controller
    requires Valid(c) && s.alpha <= ONE
  {
    if !s.armed then
      s.(armed := true, alpha := ONE, alphaPending := false, decreasePending := true,
         nextAlpha := Sat(now + c.alphaInterval),
         nextDecrease := Sat(Sat(now + c.decreaseInterval) + 1))
    else
      var m := Materialize(c, s, now);
      var a := AlphaBefore(c, m, now);
      a.(alphaPending := true,
         decreasePending := true,
         nextDecrease := if a.decreasePending then a.nextDecrease else FirstDecreaseAtOrAfter(c, a.nextDecrease, now))
  }

  /** The freeze: every instant before `bound`, alpha included, and the grid moved to the bound. */
  function Settle(c: Config, s: Controller, bound: U64): Controller
    requires Valid(c) && s.alpha <= ONE
  {
    if !s.armed then s
    else
      var m := Materialize(c, s, bound);
      var a := AlphaBefore(c, m, bound);
      a.(nextDecrease := FirstDecreaseAtOrAfter(c, a.nextDecrease, bound))
  }
}
