/** The reference machine: one event list for every node, always popping the least key. */
module Serial {
  import opened Events
  import opened LogicalProcess

  datatype Machine = Machine(states: seq<State>, pending: set<Event>)

  /** Inserts children one by one, refusing a repeated key. */
  ghost function Enqueue(pending: set<Event>, children: seq<Event>): (r: Option<set<Event>>)
    requires UniqueKeys(pending)
    ensures r.Some? ==> UniqueKeys(r.value)
  {
    if children == [] then Some(pending)
    else
      var last := children[|children| - 1];
      match Enqueue(pending, children[..|children| - 1])
      case None => None
      case Some(queued) => if HasKey(queued, last.key) then None else Some(queued + {last})
  }

  /** Runs the least pending event. */
  ghost function Step(m: Model, g: Machine): (r: Option<Machine>)
    requires UniqueKeys(g.pending) && g.pending != {}
    ensures r.Some? ==> UniqueKeys(r.value.pending) && |r.value.states| == |g.states|
  {
    var e := Least(g.pending);
    if e.target >= |g.states| then None
    else
      match m.step(e.target, g.states[e.target], e)
      case Refused => None
      case Next(state, children, superseded) =>
        match RemoveTimers(g.pending - {e}, superseded)
        case None => None
        case Some(kept) =>
          match Enqueue(kept, children)
          case None => None
          case Some(pending) => Some(Machine(g.states[e.target := state], pending))
  }

  /** Exactly `n` events, each below the exclusive end of the run. */
  ghost function Steps(m: Model, g: Machine, end: nat, n: nat): (r: Option<Machine>)
    requires UniqueKeys(g.pending)
    ensures r.Some? ==> UniqueKeys(r.value.pending) && |r.value.states| == |g.states|
    decreases n
  {
    if n == 0 then Some(g)
    else if !Below(g.pending, end) then None
    else
      match Step(m, g)
      case None => None
      case Some(next) => Steps(m, next, end, n - 1)
  }

  /** The serial run from `g` to the end stops in `final` after `n` events. */
  ghost predicate Finishes(m: Model, g: Machine, end: nat, n: nat, final: Machine)
    requires UniqueKeys(g.pending)
  {
    Steps(m, g, end, n) == Some(final) && !Below(final.pending, end)
  }

  /** The serial run is deterministic. */
  lemma {:induction false} FinishesOnce(m: Model, g: Machine, end: nat, n: nat, a: Machine, k: nat, b: Machine)
    requires UniqueKeys(g.pending)
    requires Finishes(m, g, end, n, a) && Finishes(m, g, end, k, b)
    ensures n == k && a == b
    decreases n
  {
    if n != 0 && k != 0 {
      FinishesOnce(m, Step(m, g).value, end, n - 1, a, k - 1, b);
    }
  }

  /** Two stretches of a run make one; the first may stop at an earlier horizon. */
  lemma {:induction false} StepsCompose(m: Model, g: Machine, horizon: nat, end: nat, n: nat, k: nat)
    requires UniqueKeys(g.pending) && horizon <= end
    requires Steps(m, g, horizon, n).Some?
    ensures Steps(m, g, end, n + k) == Steps(m, Steps(m, g, horizon, n).value, end, k)
    decreases n
  {
    if n != 0 {
      StepsCompose(m, Step(m, g).value, horizon, end, n - 1, k);
    }
  }

  lemma FinishesCompose(m: Model, g: Machine, horizon: nat, end: nat, n: nat, mid: Machine, k: nat, final: Machine)
    requires UniqueKeys(g.pending) && UniqueKeys(mid.pending) && horizon <= end
    requires Finishes(m, g, horizon, n, mid) && Finishes(m, mid, end, k, final)
    ensures Finishes(m, g, end, n + k, final)
  {
    StepsCompose(m, g, horizon, end, n, k);
  }

  /** What a successful insertion leaves, and when it succeeds. */
  lemma {:induction false} EnqueueResult(pending: set<Event>, children: seq<Event>)
    requires UniqueKeys(pending)
    ensures Enqueue(pending, children).Some? ==> Enqueue(pending, children).value == pending + Elements(children)
    ensures AllFresh(pending, children) ==> Enqueue(pending, children).Some?
  {
    if children != [] {
      var init, last := children[..|children| - 1], children[|children| - 1];
      EnqueueResult(pending, init);
      assert children == init + [last];
      if AllFresh(pending, children) {
        assert AllFresh(pending, init);
        assert !HasKey(pending + Elements(init), last.key);
      }
    }
  }

  /** No child repeats a pending key or the key of another child. */
  ghost predicate AllFresh(pending: set<Event>, children: seq<Event>) {
    && (forall c | c in children :: !HasKey(pending, c.key))
    && (forall i, j | 0 <= i < j < |children| :: children[i].key != children[j].key)
  }

  ghost function ToSelf(children: seq<Event>, node: U64): set<Event> {
    set c | c in children && c.target == node
  }

  ghost function ToOthers(children: seq<Event>, node: U64): set<Event> {
    set c | c in children && c.target != node
  }

  lemma SplitLast(children: seq<Event>, node: U64)
    requires children != []
    ensures var init, last := children[..|children| - 1], children[|children| - 1];
            && ToSelf(children, node) == ToSelf(init, node) + (if last.target == node then {last} else {})
            && ToOthers(children, node) == ToOthers(init, node) + (if last.target != node then {last} else {})
  {
    assert children == children[..|children| - 1] + [children[|children| - 1]];
  }

  /** What a successful routing leaves. */
  lemma {:induction false} RouteLeaves(node: U64, children: seq<Event>, d: Drained, capacity: Option<nat>)
    requires UniqueKeys(d.lp.pending) && Route(node, children, d, capacity).Some?
    ensures var r := Route(node, children, d, capacity).value;
            && r.lp.state == d.lp.state
            && r.lp.pending == d.lp.pending + ToSelf(children, node)
            && Elements(r.outbox) == Elements(d.outbox) + ToOthers(children, node)
  {
    if children != [] {
      var init, last := children[..|children| - 1], children[|children| - 1];
      RouteLeaves(node, init, d, capacity);
      SplitLast(children, node);
      ElementsSnoc(Route(node, init, d, capacity).value.outbox, last);
    }
  }

  lemma ElementsSnoc(events: seq<Event>, e: Event)
    ensures Elements(events + [e]) == Elements(events) + {e}
  {
  }

  /** Routing fresh children without a capacity never fails. */
  lemma {:induction false} RouteSucceeds(node: U64, children: seq<Event>, d: Drained)
    requires UniqueKeys(d.lp.pending) && AllFresh(d.lp.pending, children)
    ensures Route(node, children, d, None).Some?
  {
    if children != [] {
      var init, last := children[..|children| - 1], children[|children| - 1];
      assert children == init + [last];
      RouteSucceeds(node, init, d);
      RouteLeaves(node, init, d, None);
      assert !HasKey(d.lp.pending + ToSelf(init, node), last.key);
    }
  }
}
