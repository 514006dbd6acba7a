/** The stateless ECN ramp: an exact rational marking probability from one 64-bit draw. */
module EcnRamp {
  import opened Events
  import opened SplitMix
  import Basics
  import Words

  const ECN_RAMP_DOMAIN: U64 := 0x4543_4e5f_5241_4d50

  datatype Policy = Policy(capacity: U64, kmin: U64, kmax: U64, pmaxNumerator: U64, pmaxDenominator: U64)

  datatype Action = Enqueue | Mark | Drop

  /** The key of a queue's draws. */
  function QueueKey(seed: U64, node: U64, queue: U64): U64 {
    Mix(Xor(Mix(Xor(Mix(Xor(seed, ECN_RAMP_DOMAIN)), node)), queue))
  }

  /** The draw of one arrival. */
  function Draw(key: U64, payload: U64): U64 { Mix(Xor(key, payload)) }

  /** The payload id whose draw is `u`. */
  function PayloadOf(key: U64, u: U64): U64 { Xor(key, Unmix(u)) }

  /** At one queue, payload ids and draws correspond one to one. */
  lemma DrawIsBijection(key: U64, word: U64)
    ensures PayloadOf(key, Draw(key, word)) == word
    ensures Draw(key, PayloadOf(key, word)) == word
  {
    hide Mix, Unmix, Xor;
    MixIsBijection(Xor(key, word));
    XorUndoes(key, word);
    XorUndoes(key, Unmix(word));
    MixIsBijection(word);
  }

  /** Distinct queues of a node never share a key, nor do queues of the same index at distinct nodes. */
  lemma KeysAreDistinct(seed: U64, node: U64, queue: U64, node': U64, queue': U64)
    requires QueueKey(seed, node, queue) == QueueKey(seed, node', queue')
    ensures node == node' ==> queue == queue'
    ensures queue == queue' ==> node == node'
  {
    hide Mix, Unmix, Xor;
    var root := Mix(Xor(seed, ECN_RAMP_DOMAIN));
    var at, at' := Mix(Xor(root, node)), Mix(Xor(root, node'));
    MixIsBijection(Xor(at, queue));
    MixIsBijection(Xor(at', queue'));
    XorUndoes(at, queue);
    XorUndoes(at', queue');
    if queue == queue' {
      XorCommutes(at, queue);
      XorCommutes(at', queue);
      XorUndoes(queue, at);
      XorUndoes(queue, at');
      MixIsBijection(Xor(root, node));
      MixIsBijection(Xor(root, node'));
      XorUndoes(root, node);
      XorUndoes(root, node');
    }
  }

  lemma XorCommutes(a: U64, b: U64)
    ensures Xor(a, b) == Xor(b, a)
  {
    hide Xor, Bit;
    forall i | 0 <= i < 64
      ensures Bit(Xor(a, b), i) == Bit(Xor(b, a), i)
    {
      BitOfWordXor(a, b, i);
      BitOfWordXor(b, a, i);
    }
    SameWord(Xor(a, b), Xor(b, a));
  }

  /** The ramp's span, if it fits a word. */
  function Span(p: Policy): Option<U64> {
    var width := if p.kmax < p.kmin then 0 else p.kmax - p.kmin;
    if p.pmaxDenominator * width > U64_MAX then None
    else
      assert 0 <= p.pmaxDenominator * width;
      Some(p.pmaxDenominator * width)
  }

  function High(u: U64, span: nat): nat {
    assert 0 <= u * span;
    u * span / WORDS
  }

  /** What happens to an arrival of `size` bytes at a queue that holds `queued` bytes. */
  function Decision(p: Policy, queued: U64, size: U64, ecnCapable: bool, draw: U64): Action {
    var depth := queued + size;
    if depth > U64_MAX || depth > p.capacity then Drop
    else if !ecnCapable || depth < p.kmin then Enqueue
    else if depth >= p.kmax then Mark
    else
      var span, bound := p.pmaxDenominator * (p.kmax - p.kmin), p.pmaxNumerator * (depth - p.kmin);
      assert span >= 0;
      if High(draw, span) < bound then Mark else Enqueue
  }

  predicate Divides(d: nat, n: nat) { d > 0 && n % d == 0 }

  /** `g` is the greatest common divisor: the common divisors of both are the divisors of `g`. */
  ghost predicate IsGcd(g: nat, a: nat, b: nat) {
    forall d: nat {:trigger Divides(d, a)} {:trigger Divides(d, g)} :: Divides(d, a) && Divides(d, b) <==> Divides(d, g)
  }

  /** What validation demands of a policy. */
  ghost predicate WellFormed(p: Policy) {
    && 0 < p.capacity && 1 <= p.kmin <= p.kmax <= p.capacity
    && 0 < p.pmaxNumerator <= p.pmaxDenominator
    && (forall d: nat {:trigger Divides(d, p.pmaxNumerator)} ::
          Divides(d, p.pmaxNumerator) && Divides(d, p.pmaxDenominator) ==> d == 1)
    && (p.kmin == p.kmax ==> p.pmaxNumerator == p.pmaxDenominator)
    && p.pmaxDenominator * (p.kmax - p.kmin) <= U64_MAX
  }

  /** Euclid's step keeps the common divisors. */
  lemma SameDivisors(d: nat, a: nat, b: nat)
    requires d > 0 && b > 0
    ensures Divides(d, a) && Divides(d, b) <==> Divides(d, b) && Divides(d, a % b)
  {
    var q := a / b;
    assert a == q * b + a % b;
    if Divides(d, b) {
      var k := b / d;
      assert b == k * d;
      Multiple(q, k, d);
      SumMod(q * k, d, a % b);
    }
  }

  lemma Multiple(q: nat, k: nat, d: nat)
    ensures q * (k * d) == q * k * d
  {
  }

  lemma SumMod(m: nat, d: nat, rest: nat)
    requires d > 0
    ensures (m * d + rest) % d == rest % d
    decreases m
  {
    if m > 0 {
      SumMod(m - 1, d, rest);
      assert m * d + rest == (m - 1) * d + rest + d;
      Turn((m - 1) * d + rest, d);
    }
  }

  lemma Turn(x: nat, d: nat)
    requires d > 0
    ensures (x + d) % d == x % d
  {
    var q, r := x / d, x % d;
    assert x == q * d + r;
    assert (q + 1) * d == q * d + d;
    assert x + d == (q + 1) * d + r;
    Basics.RemainderIs(x + d, q + 1, d, r);
  }

  /** The common divisors of two numbers are those of two others. */
  ghost predicate SameCommonDivisors(a: nat, b: nat, c: nat, d: nat) {
    forall k: nat {:trigger Divides(k, a)} {:trigger Divides(k, c)} ::
      Divides(k, a) && Divides(k, b) <==> Divides(k, c) && Divides(k, d)
  }

  method Gcd(a: U64, b: U64) returns (g: U64)
    ensures IsGcd(g, a, b)
  {
    hide Divides;
    var left: U64, right: U64 := a, b;
    while right != 0
      invariant SameCommonDivisors(a, b, left, right)
      decreases right
    {
      forall k: nat
        ensures Divides(k, left) && Divides(k, right) <==> Divides(k, right) && Divides(k, left % right)
      {
        DivisorsStep(k, left, right);
      }
      assert SameCommonDivisors(a, b, right, left % right);
      left, right := right, left % right;
    }
    g := left;
    forall d: nat
      ensures Divides(d, a) && Divides(d, b) <==> Divides(d, g)
    {
      DividesZero(d, g);
    }
  }

  lemma DividesZero(d: nat, n: nat)
    ensures Divides(d, n) ==> Divides(d, 0)
  {
  }

  lemma DivisorsStep(k: nat, left: nat, right: nat)
    requires right > 0
    ensures Divides(k, left) && Divides(k, right) <==> Divides(k, right) && Divides(k, left % right)
  {
    if k > 0 {
      SameDivisors(k, left, right);
    }
  }

  datatype PolicyError = NoCapacity | BadThresholds | BadProbability | NotLowestTerms | StepBelowOne | SpanTooWide

  /** Accepts exactly the well-formed policies. */
  method PolicyCheck(p: Policy) returns (error: Option<PolicyError>)
    ensures error.None? <==> WellFormed(p)
  {
    if p.capacity == 0 {
      return Some(NoCapacity);
    }
    if p.kmin == 0 || p.kmin > p.kmax || p.kmax > p.capacity {
      return Some(BadThresholds);
    }
    if p.pmaxNumerator == 0 || p.pmaxNumerator > p.pmaxDenominator {
      return Some(BadProbability);
    }
    var g := Gcd(p.pmaxNumerator, p.pmaxDenominator);
    CoprimeIsOne(g, p.pmaxNumerator, p.pmaxDenominator);
    if g != 1 {
      return Some(NotLowestTerms);
    }
    if p.kmin == p.kmax && p.pmaxNumerator != p.pmaxDenominator {
      return Some(StepBelowOne);
    }
    if Span(p).None? {
      return Some(SpanTooWide);
    }
    return None;
  }

  lemma CoprimeIsOne(g: nat, a: nat, b: nat)
    requires IsGcd(g, a, b) && a > 0
    ensures g == 1 <==> forall d: nat {:trigger Divides(d, a)} :: Divides(d, a) && Divides(d, b) ==> d == 1
  {
    assert Divides(a + 1, g) ==> Divides(a + 1, a);
    assert g > 0 ==> Divides(g, g);
    assert forall d: nat | Divides(d, 1) :: d == 1;
  }

  /** The numerator of the marking probability at a depth; the denominator is the span. */
  function Bound(p: Policy, depth: U64): nat
    requires p.kmin <= depth
  {
    assert p.pmaxNumerator * (depth - p.kmin) >= 0;
    p.pmaxNumerator * (depth - p.kmin)
  }

  ghost predicate InRamp(p: Policy, depth: nat) { p.kmin <= depth < p.kmax && depth <= p.capacity }

  /** Inside the ramp of an accepted policy the bound is below the span, and the span fits a word. */
  lemma SpanAndBoundFit(p: Policy, depth: U64)
    requires WellFormed(p) && InRamp(p, depth)
    ensures Span(p).Some? && Bound(p, depth) < Span(p).value
  {
    var width := p.kmax - p.kmin;
    LessProduct(p.pmaxNumerator, depth - p.kmin, width);
    Words.Scaled(p.pmaxNumerator, p.pmaxDenominator, width);
  }

  lemma LessProduct(n: nat, x: nat, y: nat)
    requires n > 0 && x < y
    ensures n * x < n * y
  {
    assert n * y == n * x + n * (y - x);
  }

  /** The least draw that does not mark: the probability times 2^64, rounded up. */
  function Threshold(bound: nat, span: nat): nat
    requires span > 0
  {
    (bound * WORDS + span - 1) / span
  }

  lemma FloorBelow(x: nat, d: nat, b: nat)
    requires d > 0
    ensures x / d < b <==> x < b * d
  {
    var q, r := x / d, x % d;
    assert x == q * d + r;
    if q < b {
      Words.Scaled(q + 1, b, d);
      assert (q + 1) * d == q * d + d;
    } else {
      Words.Scaled(b, q, d);
    }
  }

  lemma CeilAbove(u: nat, n: nat, span: nat)
    requires span > 0
    ensures u * span < n <==> u < (n + span - 1) / span
  {
    FloorBelow(n + span - 1, span, u + 1);
    assert (u + 1) * span == u * span + span;
  }

  /** The high word of the product compares exactly as the rational does. */
  lemma HighIsExact(u: U64, span: nat, bound: nat)
    requires span > 0
    ensures High(u, span) < bound <==> u * span < bound * WORDS
    ensures High(u, span) < bound <==> u < Threshold(bound, span)
  {
    assert u * span >= 0;
    FloorBelow(u * span, WORDS, bound);
    CeilAbove(u, bound * WORDS, span);
  }

  /** Nothing rounds the probability: inside the ramp an ECN-capable arrival is marked exactly when
      draw / 2^64 is below pmax * (depth - kmin) / (kmax - kmin). */
  lemma DecisionIsExact(p: Policy, queued: U64, size: U64, draw: U64)
    requires WellFormed(p) && InRamp(p, queued + size)
    ensures var depth := queued + size;
            && Span(p).Some? && Span(p).value > 0
            && Decision(p, queued, size, true, draw) != Drop
            && (Decision(p, queued, size, true, draw) == Mark <==>
                draw * (p.pmaxDenominator * (p.kmax - p.kmin)) < p.pmaxNumerator * (depth - p.kmin) * WORDS)
            && (Decision(p, queued, size, true, draw) == Mark <==> draw < Threshold(Bound(p, depth), Span(p).value))
  {
    hide High;
    var depth := queued + size;
    SpanAndBoundFit(p, depth);
    HighIsExact(draw, Span(p).value, Bound(p, depth));
  }

  /** The draw matters only inside the ramp and for ECN-capable data. */
  lemma DrawIsUnused(p: Policy, queued: U64, size: U64, ecnCapable: bool, draw: U64, draw': U64)
    requires !ecnCapable || !InRamp(p, queued + size)
    ensures Decision(p, queued, size, ecnCapable, draw) == Decision(p, queued, size, ecnCapable, draw')
  {
  }

  /** The ramp never marks at its foot, and a step marks from its threshold on. */
  lemma RampEnds(p: Policy, queued: U64, size: U64, draw: U64)
    requires queued + size <= p.capacity
    ensures queued + size == p.kmin < p.kmax ==> Decision(p, queued, size, true, draw) == Enqueue
    ensures p.kmin == p.kmax ==> (Decision(p, queued, size, true, draw) == Mark <==> queued + size >= p.kmin)
  {
    if queued + size == p.kmin {
      assert p.pmaxNumerator * 0 == 0;
    }
  }

  function Rank(a: Action): nat {
    match a
    case Enqueue => 0
    case Mark => 1
    case Drop => 2
  }

  /** For one arrival, a fuller queue never acts more mildly. */
  lemma ActionIsMonotone(p: Policy, queued: U64, queued': U64, size: U64, ecnCapable: bool, draw: U64)
    requires queued <= queued'
    ensures Rank(Decision(p, queued, size, ecnCapable, draw)) <= Rank(Decision(p, queued', size, ecnCapable, draw))
  {
    hide High;
    var depth, depth' := queued + size, queued' + size;
    if p.kmin <= depth && depth' < p.kmax {
      var n := p.pmaxNumerator;
      assert n * (depth' - p.kmin) == n * (depth - p.kmin) + n * (depth' - depth);
      assert n * (depth' - depth) >= 0;
    }
  }

  /** The payload ids with the first `n` draws. */
  ghost function Payloads(key: U64, n: nat): set<U64>
    requires n <= WORDS
  {
    if n == 0 then {} else Payloads(key, n - 1) + {PayloadOf(key, n - 1)}
  }

  lemma {:induction false} PayloadsMember(key: U64, n: nat, payload: U64)
    requires n <= WORDS
    ensures payload in Payloads(key, n) <==> Draw(key, payload) < n
  {
    hide Draw, PayloadOf;
    if n > 0 {
      PayloadsMember(key, n - 1, payload);
      DrawIsBijection(key, payload);
      DrawIsBijection(key, n - 1);
    }
  }

  lemma {:induction false} PayloadsCount(key: U64, n: nat)
    requires n <= WORDS
    ensures |Payloads(key, n)| == n
  {
    hide Draw, PayloadOf;
    if n > 0 {
      PayloadsCount(key, n - 1);
      PayloadsMember(key, n - 1, PayloadOf(key, n - 1));
      DrawIsBijection(key, n - 1);
    }
  }

  /** Over all payload ids, exactly ceil(P * 2^64) are marked at a depth with probability P. */
  lemma MarkedPayloads(p: Policy, queued: U64, size: U64, key: U64) returns (marked: set<U64>)
    requires WellFormed(p) && InRamp(p, queued + size)
    ensures forall payload: U64 :: payload in marked <==> Decision(p, queued, size, true, Draw(key, payload)) == Mark
    ensures Span(p).Some? && Span(p).value > 0
    ensures |marked| == Threshold(Bound(p, queued + size), Span(p).value) <= WORDS
  {
    hide Draw, PayloadOf, Decision, Threshold;
    var depth := queued + size;
    SpanAndBoundFit(p, depth);
    var threshold := Threshold(Bound(p, depth), Span(p).value);
    ThresholdFits(Bound(p, depth), Span(p).value);
    marked := Payloads(key, threshold);
    PayloadsCount(key, threshold);
    forall payload: U64
      ensures payload in marked <==> Decision(p, queued, size, true, Draw(key, payload)) == Mark
    {
      PayloadsMember(key, threshold, payload);
      DecisionIsExact(p, queued, size, Draw(key, payload));
    }
  }

  lemma ThresholdFits(bound: nat, span: nat)
    requires bound < span
    ensures Threshold(bound, span) <= WORDS
  {
    Words.Scaled(bound + 1, span, WORDS);
    assert (bound + 1) * WORDS == bound * WORDS + WORDS;
    assert span * WORDS == WORDS * span;
    FloorBelow(bound * WORDS + span - 1, span, WORDS + 1);
    assert (WORDS + 1) * span == WORDS * span + span;
  }

  /** Outside the ramp: an arrival is dropped exactly if it does not fit, whatever it is; one that fits and is not
      ECN-capable is enqueued; an ECN-capable one is enqueued below the ramp and marked above it. */
  lemma DecisionOutsideRamp(p: Policy, queued: U64, size: U64, ecnCapable: bool, draw: U64)
    ensures Decision(p, queued, size, ecnCapable, draw) == Drop <==> p.capacity < queued + size
    ensures queued + size <= p.capacity && !ecnCapable ==> Decision(p, queued, size, ecnCapable, draw) == Enqueue
    ensures queued + size <= p.capacity && queued + size < p.kmin ==> Decision(p, queued, size, ecnCapable, draw) == Enqueue
    ensures ecnCapable && p.kmin <= queued + size <= p.capacity && p.kmax <= queued + size ==>
              Decision(p, queued, size, ecnCapable, draw) == Mark
  {
  }

  /** What comes to a queue: a packet of some size, or room made by a departure. */
  datatype Change = Arrival(size: U64, ecnCapable: bool, draw: U64) | Departure(size: U64)

  /** The bytes a queue holds after a sequence of changes, and the bytes it dropped. */
  function Served(p: Policy, changes: seq<Change>): (r: (U64, nat))
    ensures r.0 <= p.capacity
  {
    if changes == [] then (0, 0)
    else
      var before := Served(p, changes[..|changes| - 1]);
      match changes[|changes| - 1]
      case Departure(size) => (if size <= before.0 then before.0 - size else 0, before.1)
      case Arrival(size, ecnCapable, draw) =>
        DecisionOutsideRamp(p, before.0, size, ecnCapable, draw);
        if Decision(p, before.0, size, ecnCapable, draw) == Drop then (before.0, before.1 + size) else (before.0 + size, before.1)
  }

  /** All bytes that came and did not leave. */
  function Offered(changes: seq<Change>): nat {
    if changes == [] then 0
    else Offered(changes[..|changes| - 1]) + if changes[|changes| - 1].Arrival? then changes[|changes| - 1].size else 0
  }

  /** A queue is never fuller than its capacity; and if all that is offered fits, nothing is dropped. */
  lemma {:induction false} QueueKeepsCapacity(p: Policy, changes: seq<Change>)
    ensures Served(p, changes).0 <= p.capacity && Served(p, changes).0 + Served(p, changes).1 <= Offered(changes)
    ensures Offered(changes) <= p.capacity ==> Served(p, changes).1 == 0
  {
    hide Decision;
    if changes != [] {
      var before := Served(p, changes[..|changes| - 1]);
      QueueKeepsCapacity(p, changes[..|changes| - 1]);
      var last := changes[|changes| - 1];
      if last.Arrival? {
        DecisionOutsideRamp(p, before.0, last.size, last.ecnCapable, last.draw);
      }
    }
  }

  /** At one queue, distinct seeds give distinct keys. */
  lemma SeedsAreDistinct(seed: U64, seed': U64, node: U64, queue: U64)
    requires QueueKey(seed, node, queue) == QueueKey(seed', node, queue)
    ensures seed == seed'
  {
    hide Mix, Unmix, Xor;
    var root, root' := Mix(Xor(seed, ECN_RAMP_DOMAIN)), Mix(Xor(seed', ECN_RAMP_DOMAIN));
    SameInput(Mix(Xor(root, node)), Mix(Xor(root', node)), queue);
    SameInput(root, root', node);
    SameInput(seed, seed', ECN_RAMP_DOMAIN);
  }

  lemma SameInput(a: U64, b: U64, x: U64)
    requires Mix(Xor(a, x)) == Mix(Xor(b, x))
    ensures a == b
  {
    hide Mix, Unmix, Xor;
    MixIsBijection(Xor(a, x));
    MixIsBijection(Xor(b, x));
    XorCommutes(a, x);
    XorCommutes(b, x);
    XorUndoes(x, a);
    XorUndoes(x, b);
  }

  /** A key gives back its seed: take off the queue first, then the node, then the domain. */
  lemma KeyTellsSeed(seed: U64, node: U64, queue: U64)
    ensures var atNode := Xor(Unmix(QueueKey(seed, node, queue)), queue);
            var root := Xor(Unmix(atNode), node);
            Xor(Unmix(root), ECN_RAMP_DOMAIN) == seed
  {
    hide Mix, Unmix, Xor;
    var root := Mix(Xor(seed, ECN_RAMP_DOMAIN));
    var atNode := Mix(Xor(root, node));
    MixIsBijection(Xor(atNode, queue));
    MixIsBijection(Xor(root, node));
    MixIsBijection(Xor(seed, ECN_RAMP_DOMAIN));
    XorTwice(atNode, queue);
    XorTwice(root, node);
    XorTwice(seed, ECN_RAMP_DOMAIN);
  }

  lemma XorTwice(a: U64, x: U64)
    ensures Xor(Xor(a, x), x) == a
  {
    hide Xor;
    XorCommutes(a, x);
    XorCommutes(Xor(a, x), x);
    XorUndoes(x, a);
  }
}
