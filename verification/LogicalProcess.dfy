/** One logical process (LP): its drain below an exclusive horizon.

The packet transition is an arbitrary deterministic function. A drain either runs every event of
the process below the horizon, in key order, or aborts. */
module LogicalProcess {
  import opened Events
  import Timers

  /** The state the packet transitions of one process own. */
  type State(!new, 0)

  datatype Outcome =
    | Refused
    | Next(state: State, children: seq<Event>, superseded: seq<Timer>)

  /** The transition of every node, and the sequence cursor from which a node numbers its children. */
  datatype Model = Model(step: (U64, State, Event) -> Outcome, cursor: State -> nat)

  datatype Lp = Lp(state: State, pending: set<Event>)

  /** A process in the middle of a drain, with the remote events it emitted so far. */
  datatype Drained = Drained(lp: Lp, outbox: seq<Event>)

  /** Sends children one by one: a local child enters the event list, which refuses a repeated key;
      a remote one joins the outbox, which may be full. */
  ghost function Route(node: U64, children: seq<Event>, d: Drained, capacity: Option<nat>): (r: Option<Drained>)
    requires UniqueKeys(d.lp.pending)
    ensures r.Some? ==> UniqueKeys(r.value.lp.pending)
    decreases |children|
  {
    if children == [] then Some(d)
    else
      match Route(node, children[..|children| - 1], d, capacity)
      case None => None
      case Some(sent) => RouteOne(node, children[|children| - 1], sent, capacity)
  }

  ghost function RouteOne(node: U64, child: Event, d: Drained, capacity: Option<nat>): (r: Option<Drained>)
    requires UniqueKeys(d.lp.pending)
    ensures r.Some? ==> UniqueKeys(r.value.lp.pending)
  {
    if child.target == node then
      if HasKey(d.lp.pending, child.key) then None
      else Some(Drained(Lp(d.lp.state, d.lp.pending + {child}), d.outbox))
    else if capacity.Some? && |d.outbox| >= capacity.value then None
    else Some(Drained(d.lp, d.outbox + [child]))
  }

  /** Runs an event that has already left the event list. */
  ghost function Dispatch(m: Model, node: U64, d: Drained, e: Event, capacity: Option<nat>): (r: Option<Drained>)
    requires UniqueKeys(d.lp.pending)
    ensures r.Some? ==> UniqueKeys(r.value.lp.pending)
  {
    match m.step(node, d.lp.state, e)
    case Refused => None
    case Next(state, children, superseded) =>
      match RemoveTimers(d.lp.pending, superseded)
      case None => None
      case Some(kept) => Route(node, children, Drained(Lp(state, kept), d.outbox), capacity)
  }

  /** Pops and runs the least event of the process. */
  ghost function LocalStep(m: Model, node: U64, d: Drained, capacity: Option<nat>): (r: Option<Drained>)
    requires UniqueKeys(d.lp.pending) && d.lp.pending != {}
    ensures r.Some? ==> UniqueKeys(r.value.lp.pending)
  {
    var e := Least(d.lp.pending);
    Dispatch(m, node, Drained(Lp(d.lp.state, d.lp.pending - {e}), d.outbox), e, capacity)
  }

  /** Runs events until none is left below the horizon. The executor counts them in 64 bits and
      aborts when the count overflows, so `budget` starts at `U64_MAX`. */
  ghost function DrainFrom(m: Model, node: U64, d: Drained, horizon: nat, capacity: Option<nat>, budget: nat)
    : (r: Option<Drained>)
    requires UniqueKeys(d.lp.pending)
    ensures r.Some? ==> UniqueKeys(r.value.lp.pending) && !Below(r.value.lp.pending, horizon)
    decreases budget
  {
    if !Below(d.lp.pending, horizon) then Some(d)
    else if budget == 0 then None
    else
      match LocalStep(m, node, d, capacity)
      case None => None
      case Some(next) => DrainFrom(m, node, next, horizon, capacity, budget - 1)
  }

  ghost function DrainLp(m: Model, node: U64, lp: Lp, horizon: nat, capacity: Option<nat>): (r: Option<Drained>)
    requires UniqueKeys(lp.pending)
    ensures r.Some? ==> UniqueKeys(r.value.lp.pending) && !Below(r.value.lp.pending, horizon)
  {
    DrainFrom(m, node, Drained(lp, []), horizon, capacity, U64_MAX)
  }

  lemma {:induction false} RouteRefusalSpreads(node: U64, children: seq<Event>, n: nat, d: Drained, capacity: Option<nat>)
    requires UniqueKeys(d.lp.pending) && n <= |children|
    requires Route(node, children[..n], d, capacity).None?
    ensures Route(node, children, d, capacity).None?
    decreases |children| - n
  {
    if n < |children| {
      assert children[..n + 1][..n] == children[..n];
      RouteRefusalSpreads(node, children, n + 1, d, capacity);
    } else {
      assert children[..n] == children;
    }
  }

  lemma LeastHasMinTime(events: set<Event>)
    requires UniqueKeys(events) && events != {}
    ensures MinTime(events) == Some(Least(events).key.time)
  {
    var t := MinTime(events).value;
    var e :| e in events && e.key.time == t;
  }

  method FindLeast(events: set<Event>) returns (e: Event)
    requires UniqueKeys(events) && events != {}
    ensures e == Least(events)
  {
    e :| e in events;
    var rest := events - {e};
    while rest != {}
      invariant rest <= events && e in events && e !in rest
      invariant forall x | x in events && x !in rest :: x == e || KeyLess(e.key, x.key)
      decreases rest
    {
      var x :| x in rest;
      assert !SameKey(x, e);
      rest := rest - {x};
      if KeyLess(x.key, e.key) {
        e := x;
      }
    }
  }

  /** Removes superseded timers: of each the least of its carriers, as many as were asked for. */
  method RemoveSuperseded(pending: set<Event>, timers: seq<Timer>) returns (kept: Option<set<Event>>)
    requires UniqueKeys(pending)
    ensures kept == RemoveTimers(pending, timers)
    ensures kept.Some? <==> Timers.EnoughCarried(pending, timers)
    ensures kept.Some? ==> Timers.LeastAreGone(pending, timers, kept.value)
  {
    hide Timers.EnoughCarried, Timers.LeastAreGone;
    Timers.RemovalSucceeds(pending, timers);
    if RemoveTimers(pending, timers).Some? {
      Timers.RemovalLeaves(pending, timers);
    }
    var left := pending;
    for i := 0 to |timers|
      invariant left <= pending
      invariant RemoveTimers(pending, timers) == RemoveTimers(left, timers[i..])
    {
      var carriers := set e | e in left && Carries(e, timers[i]);
      assert carriers == Carriers(left, timers[i]);
      if carriers == {} {
        return None;
      }
      var e := FindLeast(carriers);
      left := left - {e};
      assert timers[i..][1..] == timers[i + 1..];
    }
    return Some(left);
  }

  method Deliver(node: U64, children: seq<Event>, d: Drained, capacity: Option<nat>) returns (r: Option<Drained>)
    requires UniqueKeys(d.lp.pending)
    ensures r == Route(node, children, d, capacity)
  {
    var pending, outbox := d.lp.pending, d.outbox;
    for i := 0 to |children|
      invariant Route(node, children[..i], d, capacity) == Some(Drained(Lp(d.lp.state, pending), outbox))
    {
      var child := children[i];
      assert children[..i + 1][..i] == children[..i];
      if child.target == node {
        if HasKey(pending, child.key) {
          RouteRefusalSpreads(node, children, i + 1, d, capacity);
          return None;
        }
        pending := pending + {child};
      } else {
        if capacity.Some? && |outbox| >= capacity.value {
          RouteRefusalSpreads(node, children, i + 1, d, capacity);
          return None;
        }
        outbox := outbox + [child];
      }
    }
    assert children[..|children|] == children;
    r := Some(Drained(Lp(d.lp.state, pending), outbox));
  }

  /** A drain that finds the event `e` next runs it and goes on with one event less to spend. */
  lemma DrainUnfolds(m: Model, node: U64, d: Drained, horizon: nat, capacity: Option<nat>, budget: nat, e: Event)
    requires UniqueKeys(d.lp.pending) && IsLeast(e, d.lp.pending) && e.key.time < horizon
    ensures e == Least(d.lp.pending)
    ensures DrainFrom(m, node, d, horizon, capacity, budget) ==
            if budget == 0 || LocalStep(m, node, d, capacity).None? then None
            else DrainFrom(m, node, LocalStep(m, node, d, capacity).value, horizon, capacity, budget - 1)
  {
  }

  /** Running the direct continuation equals inserting it and popping it again. */
  lemma ContinuationIsLeast(node: U64, parent: Event, child: Event, d: Drained, capacity: Option<nat>)
    requires UniqueKeys(d.lp.pending) && IsContinuation(parent, child, node, d.lp.pending)
    ensures child !in d.lp.pending
    ensures Route(node, [child], d, capacity) == Some(Drained(Lp(d.lp.state, d.lp.pending + {child}), d.outbox))
    ensures IsLeast(child, d.lp.pending + {child})
  {
    assert [child][..0] == [];
  }

  /** A process whose next event, if any, waits outside its event list. */
  datatype Advanced = Advanced(d: Drained, continuation: Option<Event>)

  /** `a` holds what `full` holds, with its least event kept aside. */
  ghost predicate SetsAside(a: Advanced, full: Drained, time: U64) {
    && UniqueKeys(full.lp.pending)
    && a.d.lp.state == full.lp.state && a.d.outbox == full.outbox
    && match a.continuation
       case None => a.d.lp.pending == full.lp.pending
       case Some(c) =>
         IsLeast(c, full.lp.pending) && c.key.time == time && a.d.lp.pending == full.lp.pending - {c}
  }

  /** Runs one popped event. A completion's lone same-time service child is kept aside. */
  method RunEvent(m: Model, node: U64, d: Drained, event: Event, capacity: Option<nat>) returns (r: Option<Advanced>)
    requires UniqueKeys(d.lp.pending)
    ensures var dispatched := Dispatch(m, node, d, event, capacity);
            && r.Some? == dispatched.Some?
            && (r.Some? ==> SetsAside(r.value, dispatched.value, event.key.time))
  {
    var outcome := m.step(node, d.lp.state, event);
    if outcome.Refused? {
      return None;
    }
    var kept := RemoveSuperseded(d.lp.pending, outcome.superseded);
    if kept.None? {
      return None;
    }
    var before := Drained(Lp(outcome.state, kept.value), d.outbox);
    if |outcome.children| == 1 && IsContinuation(event, outcome.children[0], node, kept.value) {
      var child := outcome.children[0];
      ContinuationIsLeast(node, event, child, before, capacity);
      assert outcome.children == [child];
      return Some(Advanced(before, Some(child)));
    }
    var after := Deliver(node, outcome.children, before, capacity);
    if after.None? {
      return None;
    }
    return Some(Advanced(after.value, None));
  }

  /** The next event: the one kept aside, else the least of the event list. */
  method Pop(a: Advanced, ghost full: Drained, ghost time: U64) returns (event: Option<Event>, rest: Drained)
    requires SetsAside(a, full, time)
    ensures event.None? <==> full.lp.pending == {}
    ensures event.Some? ==>
              && IsLeast(event.value, full.lp.pending)
              && rest == Drained(Lp(full.lp.state, full.lp.pending - {event.value}), full.outbox)
              && UniqueKeys(rest.lp.pending)
    ensures a.continuation.Some? ==> event.Some? && event.value.key.time == time
  {
    if a.continuation.Some? {
      return a.continuation, a.d;
    }
    if a.d.lp.pending == {} {
      return None, a.d;
    }
    var e := FindLeast(a.d.lp.pending);
    return Some(e), Drained(Lp(a.d.lp.state, a.d.lp.pending - {e}), a.d.outbox);
  }

  /** The executable process. */
  class CpuLp {
    const node: U64
    var state: State
    var futures: set<Event>

    ghost predicate Valid()
      reads this
    {
      UniqueKeys(futures)
    }

    ghost function View(): Lp
      reads this
    {
      Lp(state, futures)
    }

    constructor (node: U64, state: State, futures: set<Event>)
      requires UniqueKeys(futures)
      ensures Valid() && this.node == node && View() == Lp(state, futures)
    {
      this.node, this.state, this.futures := node, state, futures;
    }

    /** The time of the next event. */
    method NextTime() returns (next: Option<U64>)
      requires Valid()
      ensures next == MinTime(futures)
    {
      if futures == {} {
        return None;
      }
      var e := FindLeast(futures);
      LeastHasMinTime(futures);
      return Some(e.key.time);
    }

    /** Adds an event, unless one with its key is there. */
    method Insert(event: Event) returns (ok: bool)
      requires Valid()
      modifies this`futures
      ensures Valid()
      ensures ok == !HasKey(old(futures), event.key)
      ensures futures == if ok then old(futures) + {event} else old(futures)
    {
      ok := !HasKey(futures, event.key);
      if ok {
        futures := futures + {event};
      }
    }

    /** Runs every event below the horizon, continuations without a trip through the event list. */
    method Drain(m: Model, horizon: nat, capacity: Option<nat>)
      returns (outbox: Option<seq<Event>>, processed: nat)
      requires Valid()
      modifies this`state, this`futures
      ensures outbox.Some? ==> Valid()
      ensures var drained := DrainLp(m, node, old(View()), horizon, capacity);
              && outbox.Some? == drained.Some?
              && (outbox.Some? ==> Drained(View(), outbox.value) == drained.value)
    {
      hide Route, Dispatch, RemoveTimers, HasKey, UniqueKeys;
      var at := Advanced(Drained(Lp(state, futures), []), None);
      processed := 0;
      ghost var goal := DrainLp(m, node, View(), horizon, capacity);
      // What the process would hold had every continuation been inserted.
      ghost var full := at.d;
      ghost var now: U64 := 0;
      while true
        invariant 0 <= processed <= U64_MAX
        invariant SetsAside(at, full, now)
        invariant at.continuation.Some? ==> now < horizon
        invariant goal == DrainFrom(m, node, full, horizon, capacity, U64_MAX - processed)
        decreases U64_MAX - processed
      {
        var event, rest := Pop(at, full, now);
        if event.None? || (at.continuation.None? && event.value.key.time >= horizon) {
          break;
        }
        DrainUnfolds(m, node, full, horizon, capacity, U64_MAX - processed, event.value);
        var next := RunEvent(m, node, rest, event.value, capacity);
        if next.None? || processed == U64_MAX {
          return None, processed;
        }
        at, now, full := next.value, event.value.key.time, LocalStep(m, node, full, capacity).value;
        processed := processed + 1;
      }
      state, futures := at.d.lp.state, at.d.lp.pending;
      outbox := Some(at.d.outbox);
    }
  }

  /** The children for another process, in their order. */
  function RemoteOf(node: U64, children: seq<Event>): seq<Event> {
    if children == [] then []
    else
      var last := children[|children| - 1];
      RemoteOf(node, children[..|children| - 1]) + if last.target == node then [] else [last]
  }

  function LocalOf(node: U64, children: seq<Event>): seq<Event> {
    if children == [] then []
    else
      var last := children[|children| - 1];
      LocalOf(node, children[..|children| - 1]) + if last.target == node then [last] else []
  }

  /** No local child repeats a pending key or that of another local child. */
  ghost predicate FreshLocals(pending: set<Event>, locals: seq<Event>) {
    && (forall i | 0 <= i < |locals| :: !HasKey(pending, locals[i].key))
    && (forall i, j | 0 <= i < j < |locals| :: locals[i].key != locals[j].key)
  }

  /** Routing succeeds exactly if local keys are fresh and the remote children fit the outbox; then local children are
      pending and remote ones follow in the outbox, in order. */
  lemma {:induction false} RouteIs(node: U64, children: seq<Event>, d: Drained, capacity: Option<nat>)
    requires UniqueKeys(d.lp.pending) && (capacity.Some? ==> |d.outbox| <= capacity.value)
    ensures var r := Route(node, children, d, capacity);
            && (r.Some? <==>
                  && FreshLocals(d.lp.pending, LocalOf(node, children))
                  && (capacity.Some? ==> |d.outbox| + |RemoteOf(node, children)| <= capacity.value))
            && (r.Some? ==>
                  && r.value.lp == Lp(d.lp.state, d.lp.pending + Elements(LocalOf(node, children)))
                  && r.value.outbox == d.outbox + RemoteOf(node, children))
    decreases |children|
  {
    hide UniqueKeys, HasKey;
    if children == [] {
      assert d.lp.pending + Elements([]) == d.lp.pending;
    } else {
      hide FreshLocals, Elements;
      var n := |children| - 1;
      var last, init := children[n], children[..n];
      RouteIs(node, init, d, capacity);
      if last.target == node {
        assert LocalOf(node, children) == LocalOf(node, init) + [last];
        assert RemoteOf(node, children) == RemoteOf(node, init);
        LocalsGrow(d.lp.pending, LocalOf(node, init), last);
      } else {
        assert LocalOf(node, children) == LocalOf(node, init);
        assert RemoteOf(node, children) == RemoteOf(node, init) + [last];
      }
    }
  }

  lemma LocalsGrow(pending: set<Event>, locals: seq<Event>, last: Event)
    ensures FreshLocals(pending, locals + [last]) <==>
            FreshLocals(pending, locals) && !HasKey(pending + Elements(locals), last.key)
    ensures pending + Elements(locals + [last]) == pending + Elements(locals) + {last}
  {
    var more := locals + [last];
    if FreshLocals(pending, more) {
      forall i | 0 <= i < |locals|
        ensures locals[i] == more[i] && locals[i].key != last.key
      {
        assert more[|locals|] == last;
      }
    }
    if FreshLocals(pending, locals) && !HasKey(pending + Elements(locals), last.key) {
      forall i | 0 <= i < |locals|
        ensures locals[i].key != last.key
      {
        assert locals[i] in pending + Elements(locals);
      }
    }
  }
}
