/** Canonical event records, their total order and the future-event list of one queue owner. */
module Events {

  type U16 = x: int | 0 <= x < 0x1_0000
  type U64 = x: int | 0 <= x < 0x1_0000_0000_0000_0000

  const U64_MAX: U64 := 0xffff_ffff_ffff_ffff
  /** One nanosecond after the last representable time. */
  const TIME_AFTER_U64_MAX: nat := 0x1_0000_0000_0000_0000

  datatype Option<+T> = None | Some(value: T)

  /** The packet descriptor that travels with an event. Its contents are not part of the model. */
  type Packet(==, !new, 0)

  datatype EventKey = EventKey(time: U64, phase: U16, originNode: U64, originSeq: U64)

  datatype EventKind =
    | PacketArrival
    | TxReady
    | TxComplete
    | RemoteArrival
    | RetransmissionTimeout
    | PacingTimer

  datatype Event = Event(key: EventKey, target: U64, kind: EventKind, payload: U64, packet: Packet)

  /** The canonical equal-time phase: arrivals, then completions and timers, then service. */
  function Phase(kind: EventKind): U16 {
    match kind
    case PacketArrival | RemoteArrival => 0
    case TxComplete | RetransmissionTimeout | PacingTimer => 1
    case TxReady => 2
  }

  /** Lexicographic in declaration order. */
  predicate KeyLess(a: EventKey, b: EventKey) {
    || a.time < b.time
    || (a.time == b.time && a.phase < b.phase)
    || (a.time == b.time && a.phase == b.phase && a.originNode < b.originNode)
    || (a.time == b.time && a.phase == b.phase && a.originNode == b.originNode && a.originSeq < b.originSeq)
  }

  /** What a future-event list is: a finite set of events, at most one for each key. */
  ghost predicate UniqueKeys(events: set<Event>) {
    forall a, b {:trigger SameKey(a, b)} :: a in events && b in events && SameKey(a, b) ==> a == b
  }

  predicate SameKey(a: Event, b: Event) { a.key == b.key }

  predicate IsLeast(e: Event, events: set<Event>) {
    e in events && forall x | x in events :: x == e || KeyLess(e.key, x.key)
  }

  lemma LeastExists(events: set<Event>)
    requires events != {} && UniqueKeys(events)
    ensures exists e :: IsLeast(e, events)
  {
    var x :| x in events;
    var rest := events - {x};
    if rest == {} {
      assert forall y | y in events :: y == x by {
        assert events == rest + {x};
      }
      assert IsLeast(x, events);
    } else {
      LeastExists(rest);
      var y :| IsLeast(y, rest);
      assert !SameKey(x, y);
      assert IsLeast(if KeyLess(x.key, y.key) then x else y, events);
    }
  }

  /** The event a pop takes. */
  ghost function Least(events: set<Event>): (e: Event)
    requires events != {} && UniqueKeys(events)
    ensures IsLeast(e, events)
  {
    LeastExists(events);
    var e :| IsLeast(e, events);
    e
  }

  /** Some event lies strictly before the exclusive horizon. */
  ghost predicate Below(events: set<Event>, horizon: nat) {
    exists e :: e in events && e.key.time < horizon
  }

  lemma BelowIsLeastBelow(events: set<Event>, horizon: nat)
    requires UniqueKeys(events)
    ensures Below(events, horizon) <==> events != {} && Least(events).key.time < horizon
  {
    if events != {} {
      var l := Least(events);
    }
  }

  ghost predicate IsMinTime(events: set<Event>, time: U64) {
    && (exists e :: e in events && e.key.time == time)
    && (forall e | e in events :: time <= e.key.time)
  }

  lemma MinTimeExists(events: set<Event>)
    requires events != {}
    ensures exists t :: IsMinTime(events, t)
  {
    var x :| x in events;
    var rest := events - {x};
    if rest == {} {
      assert events == {x};
      assert IsMinTime(events, x.key.time);
    } else {
      MinTimeExists(rest);
      var t :| IsMinTime(rest, t);
      assert events == rest + {x};
      assert IsMinTime(events, if x.key.time < t then x.key.time else t);
    }
  }

  /** The least time in a set of events, which one owner reports as its minimum. */
  ghost function MinTime(events: set<Event>): (r: Option<U64>)
    ensures r.None? <==> events == {}
    ensures r.Some? ==> IsMinTime(events, r.value)
  {
    if events == {} then None
    else
      MinTimeExists(events);
      var t :| IsMinTime(events, t);
      Some(t)
  }

  lemma MinTimeIs(events: set<Event>, t: U64)
    requires IsMinTime(events, t)
    ensures MinTime(events) == Some(t)
  {
    assert IsMinTime(events, MinTime(events).value);
  }

  ghost function Elements(events: seq<Event>): set<Event> { set e | e in events }

  predicate HasKey(events: set<Event>, key: EventKey) {
    exists x :: x in events && x.key == key
  }

  /** The identity of a retransmission timeout that stopped being a flow's armed timer. */
  datatype Timer = Timer(target: U64, payload: U64, deadline: U64)

  predicate Carries(e: Event, timer: Timer) {
    && e.kind.RetransmissionTimeout?
    && e.target == timer.target
    && e.payload == timer.payload
    && e.key.time == timer.deadline
    && e.key.phase == Phase(RetransmissionTimeout)
    && e.key.originNode == timer.target
  }

  ghost function Carriers(pending: set<Event>, timer: Timer): set<Event> {
    set e | e in pending && Carries(e, timer)
  }

  /** Removes the least-keyed event that carries each identity; a missing one is an error. */
  ghost function RemoveTimers(pending: set<Event>, timers: seq<Timer>): (r: Option<set<Event>>)
    requires UniqueKeys(pending)
    ensures r.Some? ==> r.value <= pending
  {
    if timers == [] then Some(pending)
    else
      var carriers := Carriers(pending, timers[0]);
      if carriers == {} then None
      else RemoveTimers(pending - {Least(carriers)}, timers[1..])
  }

  /** A local child that may run directly after its completion parent, skipping the event list. */
  predicate IsContinuation(parent: Event, child: Event, node: U64, pending: set<Event>) {
    && parent.kind.TxComplete?
    && child.target == node
    && child.kind.TxReady?
    && child.key.time == parent.key.time
    && child.key.phase == Phase(TxReady)
    && forall x | x in pending :: KeyLess(child.key, x.key)
  }

  /** At one time arrivals come before completions and timers, and these before the next service, whoever
      produced them. */
  lemma EqualTimeOrder(a: Event, b: Event)
    requires a.key.time == b.key.time && a.key.phase == Phase(a.kind) && b.key.phase == Phase(b.kind)
    ensures (a.kind.PacketArrival? || a.kind.RemoteArrival?) && !(b.kind.PacketArrival? || b.kind.RemoteArrival?) ==>
              KeyLess(a.key, b.key)
    ensures !a.kind.TxReady? && b.kind.TxReady? ==> KeyLess(a.key, b.key)
    ensures (a.kind.TxReady? <==> b.kind.TxReady?) &&
            (a.kind.PacketArrival? || a.kind.RemoteArrival? <==> b.kind.PacketArrival? || b.kind.RemoteArrival?) ==>
              (KeyLess(a.key, b.key) <==>
               a.key.originNode < b.key.originNode || (a.key.originNode == b.key.originNode && a.key.originSeq < b.key.originSeq))
  {
  }
}
