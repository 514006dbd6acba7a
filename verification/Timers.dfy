/** What removing superseded timers leaves, for every list of timers. */
module Timers {
  import opened Events

  /** The least and the greatest key that an event carrying the timer can have. */
  function LowerKey(t: Timer): EventKey { EventKey(t.deadline, 1, t.target, 0) }

  function UpperKey(t: Timer): EventKey { EventKey(t.deadline, 1, t.target, U64_MAX) }

  /** The search of the event map: keys from the lower to the upper bound, then kind, target and payload. */
  predicate IsFound(e: Event, t: Timer) {
    && !KeyLess(e.key, LowerKey(t)) && !KeyLess(UpperKey(t), e.key)
    && e.kind == RetransmissionTimeout && e.target == t.target && e.payload == t.payload
  }

  /** An event carries a timer exactly if the search of the key range would find it. */
  lemma CarriesIsFound(e: Event, t: Timer)
    ensures Carries(e, t) <==> IsFound(e, t)
  {
  }

  /** The pending events that the search for the timer would find. */
  ghost function FoundIn(pending: set<Event>, t: Timer): set<Event> {
    set e | e in pending && IsFound(e, t)
  }

  lemma FoundIsCarried(pending: set<Event>, t: Timer)
    ensures FoundIn(pending, t) == Carriers(pending, t)
  {
    forall e
      ensures e in FoundIn(pending, t) <==> e in Carriers(pending, t)
    {
      CarriesIsFound(e, t);
    }
  }

  /** An event carries one timer at most. */
  lemma OneTimer(e: Event, a: Timer, b: Timer)
    requires Carries(e, a) && Carries(e, b)
    ensures a == b
  {
  }

  /** How often the list asks for a timer. */
  function Asked(timers: seq<Timer>, t: Timer): nat { multiset(timers)[t] }

  lemma AskedFirst(timers: seq<Timer>, t: Timer)
    requires timers != []
    ensures Asked(timers, t) == Asked(timers[1..], t) + if t == timers[0] then 1 else 0
  {
    assert timers == [timers[0]] + timers[1..];
  }

  /** Every timer is carried at least as often as the list asks for it. */
  ghost predicate EnoughCarried(pending: set<Event>, timers: seq<Timer>) {
    forall t :: Asked(timers, t) <= |FoundIn(pending, t)|
  }

  /** Those gone are, of each timer, as many as were asked for, and the least of its carriers. */
  ghost predicate LeastAreGone(pending: set<Event>, timers: seq<Timer>, kept: set<Event>) {
    && kept <= pending && |pending| == |kept| + |timers|
    && (forall t :: |FoundIn(pending, t)| == |FoundIn(kept, t)| + Asked(timers, t))
    && (forall t, gone, stays | gone in FoundIn(pending, t) - kept && stays in FoundIn(kept, t) :: KeyLess(gone.key, stays.key))
    && (forall e | e in pending && (forall t | t in timers :: !IsFound(e, t)) :: e in kept)
  }

  /** Without the least carrier of a timer, that timer has one carrier less and the others as many. */
  lemma WithoutLeast(pending: set<Event>, first: Timer, t: Timer)
    requires UniqueKeys(pending) && Carriers(pending, first) != {}
    ensures var least := Least(Carriers(pending, first));
            && least in pending
            && Carriers(pending - {least}, t) == (if t == first then Carriers(pending, t) - {least} else Carriers(pending, t))
            && |Carriers(pending, t)| == |Carriers(pending - {least}, t)| + if t == first then 1 else 0
  {
    var least := Least(Carriers(pending, first));
    var rest := Carriers(pending - {least}, t);
    if t == first {
      assert rest == Carriers(pending, t) - {least};
      assert Carriers(pending, t) == rest + {least};
    } else {
      if Carries(least, t) {
        OneTimer(least, first, t);
      }
      assert rest == Carriers(pending, t);
    }
  }

  /** Removal succeeds exactly if every timer is carried as often as it is asked for. */
  lemma {:induction false} RemovalSucceeds(pending: set<Event>, timers: seq<Timer>)
    requires UniqueKeys(pending)
    ensures RemoveTimers(pending, timers).Some? <==> EnoughCarried(pending, timers)
    decreases |timers|
  {
    hide IsFound, Carries;
    if timers == [] {
      assert forall t :: Asked(timers, t) == 0;
    } else {
      var first := timers[0];
      FoundIsCarried(pending, first);
      AskedFirst(timers, first);
      if Carriers(pending, first) != {} {
        var next := pending - {Least(Carriers(pending, first))};
        RemovalSucceeds(next, timers[1..]);
        forall t
          ensures Asked(timers, t) <= |FoundIn(pending, t)| <==> Asked(timers[1..], t) <= |FoundIn(next, t)|
        {
          FoundIsCarried(pending, t);
          FoundIsCarried(next, t);
          AskedFirst(timers, t);
          WithoutLeast(pending, first, t);
        }
      } else {
        assert !(Asked(timers, first) <= |FoundIn(pending, first)|);
      }
    }
  }

  /** And leaves everything but, of each timer, the least of its carriers, as many as were asked for. */
  lemma {:induction false} RemovalLeaves(pending: set<Event>, timers: seq<Timer>)
    requires UniqueKeys(pending) && RemoveTimers(pending, timers).Some?
    ensures LeastAreGone(pending, timers, RemoveTimers(pending, timers).value)
    decreases |timers|
  {
    hide IsFound, Carries;
    var kept := RemoveTimers(pending, timers).value;
    if timers == [] {
      assert forall t :: Asked(timers, t) == 0;
    } else {
      var first := timers[0];
      var least := Least(Carriers(pending, first));
      var next := pending - {least};
      RemovalLeaves(next, timers[1..]);
      OneMoreGone(pending, timers, next, least, kept);
    }
  }

  lemma OneMoreGone(pending: set<Event>, timers: seq<Timer>, next: set<Event>, least: Event, kept: set<Event>)
    requires UniqueKeys(pending) && timers != [] && Carriers(pending, timers[0]) != {}
    requires least == Least(Carriers(pending, timers[0])) && next == pending - {least} && LeastAreGone(next, timers[1..], kept)
    ensures LeastAreGone(pending, timers, kept)
  {
    hide IsFound, Carries;
    var first := timers[0];
    WithoutLeast(pending, first, first);
    assert pending == next + {least};
    forall t
      ensures |FoundIn(pending, t)| == |FoundIn(kept, t)| + Asked(timers, t)
    {
      FoundIsCarried(pending, t);
      FoundIsCarried(next, t);
      AskedFirst(timers, t);
      WithoutLeast(pending, first, t);
    }
    forall t, gone, stays | gone in FoundIn(pending, t) - kept && stays in FoundIn(kept, t)
      ensures KeyLess(gone.key, stays.key)
    {
      LeastComesFirst(pending, first, t, gone, stays, kept, next);
    }
    forall e | e in pending && (forall t | t in timers :: !IsFound(e, t))
      ensures e in kept
    {
      assert first in timers && !IsFound(e, first);
      CarriesIsFound(least, first);
      assert forall t | t in timers[1..] :: t in timers;
    }
  }

  lemma LeastComesFirst(pending: set<Event>, first: Timer, t: Timer, gone: Event, stays: Event, kept: set<Event>, next: set<Event>)
    requires UniqueKeys(pending) && Carriers(pending, first) != {} && next == pending - {Least(Carriers(pending, first))}
    requires gone in FoundIn(pending, t) - kept && stays in FoundIn(kept, t) && kept <= next
    requires gone in next ==> KeyLess(gone.key, stays.key)
    ensures KeyLess(gone.key, stays.key)
  {
    var least := Least(Carriers(pending, first));
    if gone == least {
      CarriesIsFound(gone, t);
      CarriesIsFound(stays, t);
      OneTimer(least, first, t);
      assert stays in Carriers(pending, first);
    }
  }
}
