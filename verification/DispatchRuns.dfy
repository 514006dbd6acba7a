/** What holds in every run of the dynamic dispatcher, whatever the interleaving. */
module DispatchRuns {
  import opened Events
  import opened Dispatch
  import opened DispatchSteps

  ghost function Run(u: Round, actions: seq<Action>): Option<State> {
    if actions == [] then Some(Initial(u))
    else
      var a := actions[|actions| - 1];
      match Run(u, actions[..|actions| - 1])
      case None => None
      case Some(s) => if Shaped(u, s) && Enabled(u, s, a) then Some(Act(u, s, a)) else None
  }

  lemma {:induction false} EmptyBag(slots: seq<Option<nat>>)
    requires forall i | 0 <= i < |slots| :: slots[i].None?
    ensures Bag(slots) == multiset{}
  {
    if slots != [] {
      EmptyBag(slots[..|slots| - 1]);
    }
  }

  lemma NothingCarried(seats: seq<Seat>)
    requires forall w | 0 <= w < |seats| :: seats[w].carried.None?
    ensures Carried(seats) == multiset{} && AllWorked(seats) == multiset{}
  {
    hide Bag;
    EmptyBag(seq(|seats|, w requires 0 <= w < |seats| => seats[w].carried));
    EmptyBag(seq(|seats|, w requires 0 <= w < |seats| => Worked(seats[w])));
  }

  lemma InitialInv(u: Round)
    requires ValidRound(u)
    ensures Inv(u, Initial(u))
  {
    hide Carried, AllWorked;
    DedicatedFits(u);
    NothingCarried(Initial(u).seats);
  }

  /** No run dispatches to a busy worker or meets an answer it does not expect. */
  lemma {:induction false} RunsKeepInvariant(u: Round, actions: seq<Action>)
    requires ValidRound(u) && Run(u, actions).Some?
    ensures Inv(u, Run(u, actions).value) && !Run(u, actions).value.mismatch
  {
    hide Inv, Act, Initial, Enabled;
    if actions == [] {
      InitialInv(u);
    } else {
      RunsKeepInvariant(u, actions[..|actions| - 1]);
      ActKeeps(u, Run(u, actions[..|actions| - 1]).value, actions[|actions| - 1]);
    }
    NoMismatch(u, Run(u, actions).value);
  }

  lemma NoMismatch(u: Round, s: State)
    requires Inv(u, s)
    ensures Shaped(u, s) && !s.mismatch
  {
  }

  lemma WholeBag(part: multiset<nat>, rest: multiset<nat>, all: multiset<nat>)
    requires part + rest == all && |part| == |all|
    ensures rest == multiset{} && part == all
  {
    assert |part + rest| == |part| + |rest|;
  }

  /** When the round has ended, every chunk has been executed exactly once and reported once. */
  lemma EveryChunkOnce(u: Round, actions: seq<Action>)
    requires ValidRound(u) && Run(u, actions).Some? && Ended(u, Run(u, actions).value)
    ensures var s := Run(u, actions).value;
            && s.executed == multiset(u.stragglers) + multiset(u.bulk)
            && multiset(s.completed) == multiset(u.stragglers) + multiset(u.bulk)
            && s.stragglers == [] && s.bulk == []
  {
    hide Run, SeatOk, AwaitOk, DeferredOk, Separated, Busy, Carried, AllWorked;
    RunsKeepInvariant(u, actions);
    var s := Run(u, actions).value;
    var all := multiset(u.stragglers) + multiset(u.bulk);
    var rest := multiset(s.stragglers) + multiset(s.bulk) + Carried(s.seats);
    assert multiset(s.completed) + rest == all;
    WholeBag(multiset(s.completed), rest, all);
    assert |multiset(s.stragglers)| == 0 && |multiset(s.bulk)| == 0;
    WorkedIsCarried(s.seats);
  }

  lemma {:induction false} WorkedBag(carried: seq<Option<nat>>, worked: seq<Option<nat>>)
    requires |carried| == |worked| && forall i | 0 <= i < |carried| :: worked[i].None? || worked[i] == carried[i]
    ensures Bag(worked) <= Bag(carried)
  {
    if carried != [] {
      WorkedBag(carried[..|carried| - 1], worked[..|worked| - 1]);
    }
  }

  lemma WorkedIsCarried(seats: seq<Seat>)
    ensures AllWorked(seats) <= Carried(seats)
  {
    hide Bag;
    WorkedBag(seq(|seats|, w requires 0 <= w < |seats| => seats[w].carried),
              seq(|seats|, w requires 0 <= w < |seats| => Worked(seats[w])));
  }

  /** At any time what has been executed is a part of the chunks, none of them twice. */
  lemma ExecutedIsPart(u: Round, actions: seq<Action>)
    requires ValidRound(u) && Run(u, actions).Some?
    ensures Run(u, actions).value.executed <= multiset(u.stragglers) + multiset(u.bulk)
  {
    hide Run, SeatOk, AwaitOk, DeferredOk, Separated, Busy, Carried, AllWorked, ValidRound, Shaped;
    RunsKeepInvariant(u, actions);
    var s := Run(u, actions).value;
    WorkedIsCarried(s.seats);
  }

  /** With two workers or more, none ever has chunks of both kinds: stragglers run on the dedicated
      workers, bulk on the others. */
  lemma KindsStayApart(u: Round, actions: seq<Action>, w: nat)
    requires ValidRound(u) && Run(u, actions).Some? && u.workers > 1 && w < u.workers
    requires Shaped(u, Run(u, actions).value)
    ensures var seat := Run(u, actions).value.seats[w];
            seat.inflight.Some? ==> (seat.inflight.value.Straggler? <==> w < u.dedicated)
  {
    hide Run, SeatOk, AwaitOk, DeferredOk, Busy, Conserved;
    RunsKeepInvariant(u, actions);
    DedicatedFits(u);
  }

  /** A worker with a chunk in flight can go on, or its answer can be read. */
  lemma SeatGoesOn(u: Round, s: State, w: nat) returns (a: Action)
    requires Inv(u, s) && !Ended(u, s) && w < u.workers && s.seats[w].inflight.Some?
    requires s.phase.Serving? || (s.phase.Awaiting? && s.seats[w].awaiting)
    ensures Enabled(u, s, a)
  {
    hide AwaitOk, Separated, Busy, Conserved, ValidRound;
    assert SeatOk(s.seats[w]);
    match s.seats[w].worker
    case Ordered(_, _) => a := Begin(w);
    case Working(_, _) => a := Finish(w);
    case Free => a := if s.phase.Serving? && s.deferred != [] then Recall else Hear(w);
  }

  lemma SomeoneIsBusy(u: Round, s: State) returns (w: nat)
    requires Inv(u, s) && !Ended(u, s) && s.phase.Serving?
    ensures w < u.workers && s.seats[w].inflight.Some?
  {
    hide SeatOk, AwaitOk, DeferredOk, Separated, Carried, AllWorked;
    DedicatedFits(u);
    if s.stragglers != [] {
      w := 0;
    } else if s.bulk != [] {
      w := if u.dedicated < u.workers then u.dedicated else 0;
      assert TakesBulk(u, w);
    } else {
      w := SomethingCarried(u, s);
    }
  }

  lemma NothingLeft(u: Round, s: State)
    requires Conserved(u, s) && s.stragglers == [] && s.bulk == []
    requires forall v | 0 <= v < |s.seats| :: s.seats[v].carried.None?
    ensures |s.completed| == |u.stragglers| + |u.bulk|
  {
    hide Carried, AllWorked;
    NothingCarried(s.seats);
    assert multiset(s.completed) == multiset(u.stragglers) + multiset(u.bulk);
    assert |multiset(s.completed)| == |u.stragglers| + |u.bulk|;
  }

  lemma SomethingCarried(u: Round, s: State) returns (w: nat)
    requires Inv(u, s) && !Ended(u, s) && s.phase.Serving? && s.stragglers == [] && s.bulk == []
    ensures w < u.workers && s.seats[w].inflight.Some?
  {
    hide AwaitOk, DeferredOk, Separated, Busy, Carried, AllWorked;
    if forall v | 0 <= v < u.workers :: s.seats[v].carried.None? {
      NothingLeft(u, s);
      assert false;
    }
    var v :| 0 <= v < u.workers && s.seats[v].carried.Some?;
    assert SeatOk(s.seats[v]);
    w := v;
  }

  /** The dispatcher is never stuck: until every chunk is complete, some step is possible. */
  lemma NeverStuck(u: Round, actions: seq<Action>) returns (a: Action)
    requires ValidRound(u) && Run(u, actions).Some? && !Ended(u, Run(u, actions).value)
    ensures Run(u, actions + [a]).Some?
  {
    hide Inv, Initial;
    RunsKeepInvariant(u, actions);
    var s := Run(u, actions).value;
    a := SomeStep(u, s);
    NoMismatch(u, s);
    assert (actions + [a])[..|actions|] == actions;
  }

  lemma SomeStep(u: Round, s: State) returns (a: Action)
    requires Inv(u, s) && !Ended(u, s)
    ensures Shaped(u, s) && Enabled(u, s, a)
  {
    hide AwaitOk, DeferredOk, Separated, Conserved, Busy;
    match s.phase
    case Seeding(_) => a := Seed;
    case Filling(_) => a := Fill;
    case Serving =>
      var w := SomeoneIsBusy(u, s);
      a := SeatGoesOn(u, s, w);
    case Awaiting =>
      if SomeAwaited(s) {
        var w :| 0 <= w < |s.seats| && s.seats[w].awaiting;
        assert SeatOk(s.seats[w]);
        a := SeatGoesOn(u, s, w);
      } else {
        a := Proceed;
      }
  }
}
