/** The dispatcher ends after a number of steps that is linear in chunks and workers. */
module DispatchProgress {
  import opened Basics
  import opened Events
  import opened Dispatch
  import opened DispatchRuns

  /** What is left to do for the chunk of a seat. */
  function SeatWork(seat: Seat): nat {
    2 * |seat.replies| + (if seat.parked.Some? then 1 else 0) +
    match seat.worker
    case Free => 0
    case Ordered(_, _) => 7
    case Working(_, _) => 4
  }

  function PhaseWork(phase: Phase, workers: nat): nat {
    match phase
    case Seeding(next) => workers + 4 + if next <= workers then workers - next else 0
    case Awaiting => workers + 3
    case Filling(next) => 1 + if next <= workers then workers - next else 0
    case Serving => 0
  }

  function SeatsWork(seats: seq<Seat>): seq<nat> { seq(|seats|, w requires 0 <= w < |seats| => SeatWork(seats[w])) }

  /** All that is left to do. */
  function Work(s: State): nat {
    8 * (|s.stragglers| + |s.bulk|) + Sum(SeatsWork(s.seats)) + PhaseWork(s.phase, |s.seats|)
  }

  lemma SeatChanges(seats: seq<Seat>, w: nat, seat: Seat)
    requires w < |seats|
    ensures Sum(SeatsWork(seats[w := seat])) + SeatWork(seats[w]) == Sum(SeatsWork(seats)) + SeatWork(seat)
  {
    hide SeatWork;
    SumUpdate(SeatsWork(seats), w, SeatWork(seat));
    assert SeatsWork(seats[w := seat]) == SeatsWork(seats)[w := SeatWork(seat)];
  }

  /** A completion spends the answer it was read from, unless it is none. */
  lemma CompletedSpends(u: Round, s: State, w: nat, kind: Class, chunk: nat)
    requires w < |s.seats| && !Completed(u, s, w, kind, chunk).mismatch
    ensures Work(Completed(u, s, w, kind, chunk)) <= Work(s)
  {
    hide Sum, SeatsWork, TakesBulk;
    var s' := Completed(u, s, w, kind, chunk);
    SeatChanges(s.seats, w, s'.seats[w]);
    assert s'.seats == s.seats[w := s'.seats[w]];
  }

  lemma HearSpends(u: Round, s: State, w: nat)
    requires Shaped(u, s) && Enabled(u, s, Hear(w)) && !DoHear(u, s, w).mismatch
    ensures Work(DoHear(u, s, w)) < Work(s)
  {
    hide Sum, SeatsWork, Completed;
    var seat := s.seats[w];
    var rest := seat.(replies := seat.replies[1..]);
    SeatChanges(s.seats, w, rest);
    if s.phase.Awaiting? {
      SeatChanges(s.seats, w, DoHear(u, s, w).seats[w]);
    } else if seat.replies[0].Complete? {
      CompletedSpends(u, s.(seats := s.seats[w := rest]), w, seat.replies[0].kind, seat.replies[0].chunk);
    }
  }

  lemma RecallSpends(u: Round, s: State)
    requires Shaped(u, s) && Enabled(u, s, Recall) && !Act(u, s, Recall).mismatch
    ensures Work(Act(u, s, Recall)) < Work(s)
  {
    hide Sum, SeatsWork, Completed;
    var w := s.deferred[0];
    var seat := s.seats[w].(parked := None);
    SeatChanges(s.seats, w, seat);
    CompletedSpends(u, s.(deferred := s.deferred[1..], seats := s.seats[w := seat]), w, s.seats[w].parked.value.kind,
                    s.seats[w].parked.value.chunk);
  }

  lemma WorkerSpends(u: Round, s: State, a: Action)
    requires Shaped(u, s) && Enabled(u, s, a) && (a.Begin? || a.Finish?)
    ensures Work(Act(u, s, a)) < Work(s)
  {
    hide Sum, SeatsWork;
    SeatChanges(s.seats, a.w, Act(u, s, a).seats[a.w]);
  }

  lemma FillSpends(u: Round, s: State, a: Action)
    requires Shaped(u, s) && Enabled(u, s, a) && !Act(u, s, a).mismatch && (a.Seed? || a.Fill? || a.Proceed?)
    ensures Work(Act(u, s, a)) < Work(s)
  {
    hide Sum, SeatsWork, TakesBulk;
    var s' := Act(u, s, a);
    if !a.Proceed? && s.phase.next < u.workers {
      SeatChanges(s.seats, s.phase.next, s'.seats[s.phase.next]);
      assert s'.seats == s.seats[s.phase.next := s'.seats[s.phase.next]];
    }
  }

  lemma ActSpends(u: Round, s: State, a: Action)
    requires Shaped(u, s) && Enabled(u, s, a) && !Act(u, s, a).mismatch
    ensures Work(Act(u, s, a)) < Work(s)
  {
    match a
    case Hear(w) => HearSpends(u, s, w);
    case Recall => RecallSpends(u, s);
    case Begin(_) => WorkerSpends(u, s, a);
    case Finish(_) => WorkerSpends(u, s, a);
    case _ => FillSpends(u, s, a);
  }

  lemma {:induction false} NoSeatWork(seats: seq<nat>)
    requires forall w | 0 <= w < |seats| :: seats[w] == 0
    ensures Sum(seats) == 0
  {
    if seats != [] {
      NoSeatWork(seats[..|seats| - 1]);
    }
  }

  /** No run takes more than eight steps for each chunk, two for each worker, and four. */
  lemma {:induction false} RunsAreBounded(u: Round, actions: seq<Action>)
    requires ValidRound(u) && Run(u, actions).Some?
    ensures |actions| + Work(Run(u, actions).value) <= 8 * (|u.stragglers| + |u.bulk|) + 2 * u.workers + 4
  {
    hide Inv, Act, Enabled;
    if actions == [] {
      NoSeatWork(SeatsWork(Initial(u).seats));
    } else {
      var before := actions[..|actions| - 1];
      RunsAreBounded(u, before);
      RunsKeepInvariant(u, actions);
      ActSpends(u, Run(u, before).value, actions[|actions| - 1]);
    }
  }

  /** Whatever was scheduled so far, the round can be carried on to its end, where every chunk has been
      executed exactly once. */
  lemma {:induction false} RunsEnd(u: Round, actions: seq<Action>) returns (all: seq<Action>)
    requires ValidRound(u) && Run(u, actions).Some?
    ensures actions <= all && Run(u, all).Some? && Ended(u, Run(u, all).value)
    ensures Run(u, all).value.executed == multiset(u.stragglers) + multiset(u.bulk)
    decreases 8 * (|u.stragglers| + |u.bulk|) + 2 * u.workers + 4 - |actions|
  {
    hide Run, Work;
    RunsAreBounded(u, actions);
    if Ended(u, Run(u, actions).value) {
      all := actions;
      EveryChunkOnce(u, all);
    } else {
      var a := NeverStuck(u, actions);
      RunsAreBounded(u, actions + [a]);
      all := RunsEnd(u, actions + [a]);
    }
  }
}
