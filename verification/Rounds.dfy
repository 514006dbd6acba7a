/** Safe-horizon rounds, and the theorem that they compute what the serial machine computes. */
module Rounds {
  import opened Basics
  import opened Events
  import opened LogicalProcess
  import Serial

  /** Every process in the middle of a round. Process `i` is node `i`. */
  type Round = seq<Drained>

  /** Every process at a round barrier: no outbox holds anything. */
  function Start(config: seq<Lp>): Round {
    seq(|config|, i requires 0 <= i < |config| => Drained(config[i], []))
  }

  /** What a process and its outbox hold. */
  ghost function Held(d: Drained): set<Event> {
    d.lp.pending + Elements(d.outbox)
  }

  ghost function All(ds: Round): set<Event> {
    set i, e | 0 <= i < |ds| && e in Held(ds[i]) :: e
  }

  /** The serial machine that a configuration stands for. */
  ghost function Flat(ds: Round): Serial.Machine {
    Serial.Machine(seq(|ds|, i requires 0 <= i < |ds| => ds[i].lp.state), All(ds))
  }

  /** Producers number their children from their own cursor, in emission order. */
  ghost predicate Numbers(m: Model) {
    forall node: U64, s: State, e: Event {:trigger m.step(node, s, e)} ::
      var outcome := m.step(node, s, e);
      outcome.Next? ==> Numbered(outcome.children, node, m.cursor(s), m.cursor(outcome.state))
  }

  ghost predicate Numbered(children: seq<Event>, node: U64, from: nat, to: nat) {
    && from <= to
    && (forall c | c in children :: c.key.originNode == node && from <= c.key.originSeq < to)
    && (forall i, j | 0 <= i < j < |children| :: children[i].key.originSeq < children[j].key.originSeq)
  }

  /** Keys are distinct everywhere: in event lists, across them, and in outboxes. */
  ghost predicate Distinct(ds: Round) {
    forall i, j, a, b {:trigger a in Held(ds[i]), b in Held(ds[j]), SameKey(a, b)} ::
      0 <= i < |ds| && 0 <= j < |ds| && a in Held(ds[i]) && b in Held(ds[j]) && SameKey(a, b) ==> i == j && a == b
  }

  /** Every event of a known origin is below that origin's cursor. */
  ghost predicate BelowCursors(m: Model, ds: Round) {
    forall i, e {:trigger e in Held(ds[i])} | 0 <= i < |ds| && e in Held(ds[i]) ::
      e.key.originNode < |ds| ==> e.key.originSeq < m.cursor(ds[e.key.originNode].lp.state)
  }

  ghost predicate Addressed(ds: Round) {
    && |ds| <= TIME_AFTER_U64_MAX
    && (forall i, e {:trigger e in ds[i].lp.pending} | 0 <= i < |ds| && e in ds[i].lp.pending :: e.target == i)
    && (forall i, e {:trigger e in ds[i].outbox} | 0 <= i < |ds| && e in ds[i].outbox :: e.target != i && e.key.originNode == i)
  }

  /** What every moment of a round keeps. */
  ghost predicate Good(m: Model, ds: Round) {
    Addressed(ds) && Distinct(ds) && BelowCursors(m, ds)
  }

  lemma GoodIsUnique(m: Model, ds: Round)
    requires Good(m, ds)
    ensures UniqueKeys(All(ds))
    ensures forall i | 0 <= i < |ds| :: UniqueKeys(ds[i].lp.pending)
  {
    forall i | 0 <= i < |ds|
      ensures UniqueKeys(ds[i].lp.pending)
    {
      forall a, b | a in ds[i].lp.pending && b in ds[i].lp.pending && SameKey(a, b)
        ensures a == b
      {
        assert a in Held(ds[i]) && b in Held(ds[i]);
      }
    }
  }

  /** The events outside a process never carry one of its timers. */
  ghost predicate NoCarrier(others: set<Event>, node: U64) {
    forall x | x in others :: !(x.target == node && x.key.originNode == node)
  }

  /** Timers of a process are removed alike from its own list and from the list of everything. */
  lemma {:induction false} TimersAreLocal(own: set<Event>, others: set<Event>, timers: seq<Timer>, node: U64)
    requires UniqueKeys(own + others) && own !! others && NoCarrier(others, node)
    requires forall x | x in own :: x.target == node
    ensures RemoveTimers(own, timers).Some? ==>
              RemoveTimers(own + others, timers) == Some(RemoveTimers(own, timers).value + others)
    ensures RemoveTimers(own + others, timers).Some? && (forall t | t in timers :: t.target == node) ==>
              RemoveTimers(own, timers).Some?
    decreases |timers|
  {
    if timers != [] {
      var t := timers[0];
      var mine, every := Carriers(own, t), Carriers(own + others, t);
      if t.target == node {
        assert mine == every;
        if mine != {} {
          var x := Least(mine);
          assert own + others - {x} == (own - {x}) + others;
          TimersAreLocal(own - {x}, others, timers[1..], node);
        }
      } else {
        assert mine == {};
      }
    }
  }

  /** One step of a process: the popped event and the superseded timers leave, the children come. */
  ghost predicate Moves(m: Model, i: U64, d: Drained, e: Event, kept: set<Event>, next: Drained) {
    var outcome := m.step(i, d.lp.state, e);
    && outcome.Next?
    && e in d.lp.pending && e !in kept && kept <= d.lp.pending
    && next.lp.state == outcome.state
    && next.lp.pending == kept + Serial.ToSelf(outcome.children, i)
    && Elements(next.outbox) == Elements(d.outbox) + Serial.ToOthers(outcome.children, i)
  }

  lemma LocalStepMoves(m: Model, i: U64, d: Drained, capacity: Option<nat>) returns (e: Event, kept: set<Event>)
    requires UniqueKeys(d.lp.pending) && d.lp.pending != {} && LocalStep(m, i, d, capacity).Some?
    ensures e == Least(d.lp.pending)
    ensures m.step(i, d.lp.state, e).Next?
    ensures RemoveTimers(d.lp.pending - {e}, m.step(i, d.lp.state, e).superseded) == Some(kept)
    ensures Moves(m, i, d, e, kept, LocalStep(m, i, d, capacity).value)
  {
    e := Least(d.lp.pending);
    var outcome := m.step(i, d.lp.state, e);
    kept := RemoveTimers(d.lp.pending - {e}, outcome.superseded).value;
    Serial.RouteLeaves(i, outcome.children, Drained(Lp(outcome.state, kept), d.outbox), capacity);
  }

  lemma HeldAfter(m: Model, i: U64, d: Drained, e: Event, kept: set<Event>, next: Drained)
    requires Moves(m, i, d, e, kept, next)
    ensures Held(next) == kept + Elements(d.outbox) + Elements(m.step(i, d.lp.state, e).children)
  {
    var children := m.step(i, d.lp.state, e).children;
    assert Elements(children) == Serial.ToSelf(children, i) + Serial.ToOthers(children, i);
  }

  /** A new child repeats no key held anywhere. */
  lemma ChildrenAreNew(m: Model, ds: Round, i: U64, e: Event, c: Event, j: int, x: Event)
    requires Numbers(m) && Good(m, ds) && i < |ds|
    requires m.step(i, ds[i].lp.state, e).Next? && c in m.step(i, ds[i].lp.state, e).children
    requires 0 <= j < |ds| && x in Held(ds[j])
    ensures !SameKey(c, x)
  {
  }

  /** Two children with one key are one child. */
  lemma ChildrenDiffer(m: Model, i: U64, s: State, e: Event, a: Event, b: Event)
    requires Numbers(m) && m.step(i, s, e).Next?
    requires a in m.step(i, s, e).children && b in m.step(i, s, e).children && SameKey(a, b)
    ensures a == b
  {
    var children := m.step(i, s, e).children;
    var x :| 0 <= x < |children| && children[x] == a;
    var y :| 0 <= y < |children| && children[y] == b;
    assert Numbered(children, i, m.cursor(s), m.cursor(m.step(i, s, e).state));
  }

  lemma DistinctAfter(m: Model, ds: Round, i: U64, e: Event, kept: set<Event>, next: Drained)
    requires Numbers(m) && Good(m, ds) && i < |ds| && Moves(m, i, ds[i], e, kept, next)
    ensures Distinct(ds[i := next])
  {
    var after, children := ds[i := next], m.step(i, ds[i].lp.state, e).children;
    HeldAfter(m, i, ds[i], e, kept, next);
    forall j, k, a, b | 0 <= j < |ds| && 0 <= k < |ds| && a in Held(after[j]) && b in Held(after[k]) && SameKey(a, b)
      ensures j == k && a == b
    {
      var newA, newB := j == i && a in children, k == i && b in children;
      assert !newA ==> a in Held(ds[j]);
      assert !newB ==> b in Held(ds[k]);
      if newA && newB {
        ChildrenDiffer(m, i, ds[i].lp.state, e, a, b);
      } else if newA {
        ChildrenAreNew(m, ds, i, e, a, k, b);
      } else if newB {
        ChildrenAreNew(m, ds, i, e, b, j, a);
        assert SameKey(b, a);
      }
    }
  }

  lemma GoodAfter(m: Model, ds: Round, i: U64, e: Event, kept: set<Event>, next: Drained)
    requires Numbers(m) && Good(m, ds) && i < |ds| && Moves(m, i, ds[i], e, kept, next)
    ensures Good(m, ds[i := next])
  {
    DistinctAfter(m, ds, i, e, kept, next);
    var after, outcome := ds[i := next], m.step(i, ds[i].lp.state, e);
    HeldAfter(m, i, ds[i], e, kept, next);
    assert Numbered(outcome.children, i, m.cursor(ds[i].lp.state), m.cursor(outcome.state));
    forall j, x | 0 <= j < |ds| && x in Held(after[j]) && x.key.originNode < |ds|
      ensures x.key.originSeq < m.cursor(after[x.key.originNode].lp.state)
    {
      if !(j == i && x in outcome.children) {
        assert x in Held(ds[j]);
      }
    }
    forall x | x in next.outbox
      ensures x.target != i && x.key.originNode == i
    {
      assert x in Elements(next.outbox);
    }
  }

  /** What the other processes hold, and what process `i` has sent. */
  ghost function Others(ds: Round, i: nat): set<Event>
    requires i < |ds|
  {
    All(ds) - ds[i].lp.pending
  }

  lemma OthersAreElsewhere(m: Model, ds: Round, i: U64)
    requires Good(m, ds) && i < |ds|
    ensures All(ds) == ds[i].lp.pending + Others(ds, i)
    ensures NoCarrier(Others(ds, i), i)
  {
    forall x | x in Others(ds, i)
      ensures !(x.target == i && x.key.originNode == i)
    {
      var j :| 0 <= j < |ds| && x in Held(ds[j]);
      assert x in ds[j].lp.pending || x in ds[j].outbox;
    }
    assert ds[i].lp.pending <= Held(ds[i]);
    assert ds[i].lp.pending <= All(ds);
  }

  lemma AllAfter(m: Model, ds: Round, i: U64, e: Event, kept: set<Event>, next: Drained)
    requires Good(m, ds) && i < |ds| && Moves(m, i, ds[i], e, kept, next)
    ensures All(ds[i := next]) == kept + Others(ds, i) + Elements(m.step(i, ds[i].lp.state, e).children)
  {
    var after, children := ds[i := next], m.step(i, ds[i].lp.state, e).children;
    HeldAfter(m, i, ds[i], e, kept, next);
    forall x
      ensures x in All(after) <==> x in kept + Others(ds, i) + Elements(children)
    {
      if x in All(after) {
        var j :| 0 <= j < |ds| && x in Held(after[j]);
        if j != i {
          assert x in Held(ds[j]);
          if x in ds[i].lp.pending {
            assert x in Held(ds[i]) && SameKey(x, x);
          }
        } else if x in ds[i].outbox {
          assert x in Held(ds[i]);
        }
      }
      if x in kept + Elements(children) {
        assert x in Held(after[i]);
      }
      if x in Others(ds, i) {
        var j :| 0 <= j < |ds| && x in Held(ds[j]);
        assert x in Held(after[j]);
      }
    }
  }

  lemma ChildrenEnqueue(m: Model, ds: Round, i: U64, e: Event, kept: set<Event>)
    requires Numbers(m) && Good(m, ds) && i < |ds| && m.step(i, ds[i].lp.state, e).Next?
    requires kept <= All(ds)
    ensures UniqueKeys(kept)
    ensures Serial.AllFresh(kept, m.step(i, ds[i].lp.state, e).children)
    ensures Serial.Enqueue(kept, m.step(i, ds[i].lp.state, e).children) ==
            Some(kept + Elements(m.step(i, ds[i].lp.state, e).children))
  {
    var children := m.step(i, ds[i].lp.state, e).children;
    GoodIsUnique(m, ds);
    forall c | c in children
      ensures !Events.HasKey(kept, c.key)
    {
      forall x | x in kept
        ensures x.key != c.key
      {
        var j :| 0 <= j < |ds| && x in Held(ds[j]);
        ChildrenAreNew(m, ds, i, e, c, j, x);
      }
    }
    assert Numbered(children, i, m.cursor(ds[i].lp.state), m.cursor(m.step(i, ds[i].lp.state, e).state));
    Serial.EnqueueResult(kept, children);
  }

  /** A step of the process that holds the least event of all is the step of the serial machine. */
  lemma StepCommutes(m: Model, ds: Round, i: U64, capacity: Option<nat>)
    requires Numbers(m) && Good(m, ds) && i < |ds|
    requires ds[i].lp.pending != {} && UniqueKeys(ds[i].lp.pending)
    requires IsLeast(Least(ds[i].lp.pending), All(ds)) && UniqueKeys(All(ds))
    requires LocalStep(m, i, ds[i], capacity).Some?
    ensures var after := ds[i := LocalStep(m, i, ds[i], capacity).value];
            Good(m, after) && Serial.Step(m, Flat(ds)) == Some(Flat(after))
  {
    var next := LocalStep(m, i, ds[i], capacity).value;
    var e, kept := LocalStepMoves(m, i, ds[i], capacity);
    GoodAfter(m, ds, i, e, kept, next);
    AllAfter(m, ds, i, e, kept, next);
    OthersAreElsewhere(m, ds, i);
    var own, others := ds[i].lp.pending - {e}, Others(ds, i);
    assert e in ds[i].lp.pending && e.target == i;
    assert All(ds) - {e} == own + others;
    var outcome := m.step(i, ds[i].lp.state, e);
    TimersAreLocal(own, others, outcome.superseded, i);
    ChildrenEnqueue(m, ds, i, e, kept + others);
    assert Flat(ds[i := next]).states == Flat(ds).states[i := next.lp.state];
  }

  /** Every process drains, from wherever it is, to `final`. */
  ghost predicate Drains(m: Model, ds: Round, horizon: nat, capacity: Option<nat>, budgets: seq<nat>, final: Round) {
    && |budgets| == |ds| == |final| <= TIME_AFTER_U64_MAX
    && forall i | 0 <= i < |ds| ::
         && UniqueKeys(ds[i].lp.pending)
         && DrainFrom(m, i, ds[i], horizon, capacity, budgets[i]) == Some(final[i])
  }

  /** No process has sent anything that lies below the horizon. */
  ghost predicate SendsAbove(ds: Round, horizon: nat) {
    forall i, e {:trigger e in ds[i].outbox} | 0 <= i < |ds| && e in ds[i].outbox :: horizon <= e.key.time
  }

  lemma {:induction false} OutboxGrows(m: Model, i: U64, d: Drained, horizon: nat, capacity: Option<nat>, budget: nat)
    requires UniqueKeys(d.lp.pending) && DrainFrom(m, i, d, horizon, capacity, budget).Some?
    ensures Elements(d.outbox) <= Elements(DrainFrom(m, i, d, horizon, capacity, budget).value.outbox)
    decreases budget
  {
    if Below(d.lp.pending, horizon) {
      var e, kept := LocalStepMoves(m, i, d, capacity);
      OutboxGrows(m, i, LocalStep(m, i, d, capacity).value, horizon, capacity, budget - 1);
    }
  }

  /** The least event of all, when it lies below the horizon, is the next event of its process. */
  lemma LeastIsLocal(m: Model, ds: Round, horizon: nat) returns (i: U64)
    requires Good(m, ds) && SendsAbove(ds, horizon) && Below(All(ds), horizon)
    ensures i < |ds| && UniqueKeys(All(ds)) && UniqueKeys(ds[i].lp.pending) && Below(ds[i].lp.pending, horizon)
    ensures ds[i].lp.pending != {} && IsLeast(Least(ds[i].lp.pending), All(ds))
  {
    GoodIsUnique(m, ds);
    BelowIsLeastBelow(All(ds), horizon);
    var e := Least(All(ds));
    var j :| 0 <= j < |ds| && e in Held(ds[j]);
    assert e in ds[j].lp.pending;
    i := j;
    assert ds[i].lp.pending <= Held(ds[i]);
    assert forall x | x in ds[i].lp.pending :: x in All(ds);
    assert IsLeast(e, ds[i].lp.pending);
  }

  lemma DrainsSendAbove(m: Model, ds: Round, horizon: nat, capacity: Option<nat>, budgets: seq<nat>, final: Round)
    requires Drains(m, ds, horizon, capacity, budgets, final) && SendsAbove(final, horizon)
    ensures SendsAbove(ds, horizon)
  {
    forall i, e | 0 <= i < |ds| && e in ds[i].outbox
      ensures horizon <= e.key.time
    {
      OutboxGrows(m, i, ds[i], horizon, capacity, budgets[i]);
      assert e in Elements(ds[i].outbox);
      assert e in final[i].outbox;
    }
  }

  lemma DrainsAreDone(m: Model, ds: Round, horizon: nat, capacity: Option<nat>, budgets: seq<nat>, final: Round)
    requires Drains(m, ds, horizon, capacity, budgets, final) && !Below(All(ds), horizon)
    ensures ds == final
  {
    forall i | 0 <= i < |ds|
      ensures ds[i] == final[i]
    {
      forall e | e in ds[i].lp.pending
        ensures horizon <= e.key.time
      {
        assert e in Held(ds[i]);
      }
    }
  }

  lemma DrainsGoOn(m: Model, ds: Round, horizon: nat, capacity: Option<nat>, budgets: seq<nat>, final: Round, i: U64)
    requires Drains(m, ds, horizon, capacity, budgets, final) && i < |ds| && Below(ds[i].lp.pending, horizon)
    ensures budgets[i] > 0 && LocalStep(m, i, ds[i], capacity).Some?
    ensures Drains(m, ds[i := LocalStep(m, i, ds[i], capacity).value], horizon, capacity, budgets[i := budgets[i] - 1], final)
  {
  }

  /** The drains of one round, in whatever order, run the events the serial machine runs. */
  lemma {:induction false} DrainsRunSerially(
    m: Model, ds: Round, horizon: nat, capacity: Option<nat>, budgets: seq<nat>, final: Round) returns (n: nat)
    requires Numbers(m) && Good(m, ds) && Drains(m, ds, horizon, capacity, budgets, final)
    requires SendsAbove(final, horizon)
    ensures Good(m, final) && UniqueKeys(All(ds))
    ensures Serial.Finishes(m, Flat(ds), horizon, n, Flat(final))
    decreases Sum(budgets)
  {
    GoodIsUnique(m, ds);
    DrainsSendAbove(m, ds, horizon, capacity, budgets, final);
    if !Below(All(ds), horizon) {
      DrainsAreDone(m, ds, horizon, capacity, budgets, final);
      n := 0;
    } else {
      var i := LeastIsLocal(m, ds, horizon);
      DrainsGoOn(m, ds, horizon, capacity, budgets, final, i);
      StepCommutes(m, ds, i, capacity);
      SumUpdate(budgets, i, budgets[i] - 1);
      var after := ds[i := LocalStep(m, i, ds[i], capacity).value];
      n := DrainsRunSerially(m, after, horizon, capacity, budgets[i := budgets[i] - 1], final);
      n := n + 1;
    }
  }
}
