/** Every action of the dispatcher keeps its invariant: no chunk is lost or run twice, no busy worker
gets a chunk, and the round never gets stuck. */
module DispatchSteps {
  import opened Events
  import opened Dispatch

  lemma Balance(p': multiset<nat>, x': multiset<nat>, p: multiset<nat>, x: multiset<nat>, k': multiset<nat>, k: multiset<nat>)
    requires p' + x' == p + x && k' + x == k + x'
    ensures p' + k' == p + k
  {
    forall n
      ensures (p' + k')[n] == (p + k)[n]
    {
      assert (p' + x')[n] == (p + x)[n] && (k' + x)[n] == (k + x')[n];
    }
  }

  function Waiting(s: State): multiset<nat> { multiset(s.stragglers) + multiset(s.bulk) + multiset(s.completed) }

  /** One seat changed, and what it gave up or took is what the queues took or gave up. */
  lemma ConservedAfter(u: Round, s: State, s': State, w: nat)
    requires Conserved(u, s) && w < |s.seats| && |s'.seats| == |s.seats| && s'.seats == s.seats[w := s'.seats[w]]
    requires Waiting(s') + One(s'.seats[w].carried) == Waiting(s) + One(s.seats[w].carried)
    requires s'.executed + multiset(s.completed) + One(Worked(s.seats[w])) ==
             s.executed + multiset(s'.completed) + One(Worked(s'.seats[w]))
    ensures Conserved(u, s')
  {
    hide Carried, AllWorked, One, Worked;
    SeatUpdate(s.seats, w, s'.seats[w]);
    Balance(Waiting(s'), One(s'.seats[w].carried), Waiting(s), One(s.seats[w].carried), Carried(s'.seats), Carried(s.seats));
    Executed(s.executed, s'.executed, multiset(s.completed), multiset(s'.completed), One(Worked(s.seats[w])),
             One(Worked(s'.seats[w])), AllWorked(s.seats), AllWorked(s'.seats));
    assert Waiting(s) + Carried(s.seats) == multiset(u.stragglers) + multiset(u.bulk);
  }

  lemma Executed(e: multiset<nat>, e': multiset<nat>, c: multiset<nat>, c': multiset<nat>, x: multiset<nat>, x': multiset<nat>,
                 a: multiset<nat>, a': multiset<nat>)
    requires e == c + a && e' + c + x == e + c' + x' && a' + x == a + x'
    ensures e' == c' + a'
  {
    forall n
      ensures e'[n] == (c' + a')[n]
    {
      assert (e' + c + x)[n] == (e + c' + x')[n] && (a' + x)[n] == (a + x')[n] && e[n] == (c + a)[n];
    }
  }

  /** Only seat `w` changed, with its order and its parking. */
  ghost predicate OnlySeat(s: State, s': State, w: nat) {
    && w < |s.seats| && |s'.seats| == |s.seats| && s'.seats == s.seats[w := s'.seats[w]]
    && !s'.mismatch
  }

  lemma WorkerKeeps(u: Round, s: State, s': State, w: nat)
    requires Inv(u, s) && OnlySeat(s, s', w) && SeatOk(s'.seats[w])
    requires s' == s.(seats := s'.seats, executed := s'.executed)
    requires var a, b := s.seats[w], s'.seats[w];
             a.inflight == b.inflight && a.awaiting == b.awaiting && a.parked == b.parked && a.carried == b.carried &&
             StartUnread(a) == StartUnread(b)
    requires s'.executed + One(Worked(s.seats[w])) == s.executed + One(Worked(s'.seats[w]))
    ensures Inv(u, s')
  {
    hide Conserved, One, Worked, SeatOk, StartUnread, ValidRound;
    assert s'.executed + multiset(s.completed) + One(Worked(s.seats[w])) ==
           s'.executed + One(Worked(s.seats[w])) + multiset(s.completed);
    assert s.executed + multiset(s'.completed) + One(Worked(s'.seats[w])) ==
           s.executed + One(Worked(s'.seats[w])) + multiset(s.completed);
    ConservedAfter(u, s, s', w);
    assert forall v | 0 <= v < |s.seats| && v != w :: s'.seats[v] == s.seats[v];
  }

  lemma BeginKeeps(u: Round, s: State, w: nat)
    requires Inv(u, s) && Enabled(u, s, Begin(w))
    ensures Inv(u, Act(u, s, Begin(w)))
  {
    hide Conserved, Busy, Separated, DeferredOk, AwaitOk, ValidRound;
    assert SeatOk(s.seats[w]);
    WorkerKeeps(u, s, Act(u, s, Begin(w)), w);
  }

  lemma FinishKeeps(u: Round, s: State, w: nat)
    requires Inv(u, s) && Enabled(u, s, Finish(w))
    ensures Inv(u, Act(u, s, Finish(w)))
  {
    hide Conserved, Busy, Separated, DeferredOk, AwaitOk, ValidRound;
    assert SeatOk(s.seats[w]);
    WorkerKeeps(u, s, Act(u, s, Finish(w)), w);
  }

  lemma TakeFirst(queue: seq<nat>)
    requires queue != []
    ensures multiset(queue) == multiset{queue[0]} + multiset(queue[1..])
  {
    assert queue == [queue[0]] + queue[1..];
  }

  /** Handing the first chunk of a queue to an empty seat conserves the chunks. */
  lemma DispatchConserves(u: Round, s: State, s': State, w: nat)
    requires Conserved(u, s) && OnlySeat(s, s', w) && s'.completed == s.completed && s'.executed == s.executed
    requires s.seats[w].carried.None? && Worked(s'.seats[w]).None?
    requires || (s.stragglers != [] && s'.stragglers == s.stragglers[1..] && s'.bulk == s.bulk &&
                 s'.seats[w].carried == Some(s.stragglers[0]))
             || (s.bulk != [] && s'.bulk == s.bulk[1..] && s'.stragglers == s.stragglers &&
                 s'.seats[w].carried == Some(s.bulk[0]))
    ensures Conserved(u, s')
  {
    hide Conserved;
    if s.stragglers != [] {
      TakeFirst(s.stragglers);
    }
    if s.bulk != [] {
      TakeFirst(s.bulk);
    }
    assert Waiting(s') + One(s'.seats[w].carried) == Waiting(s);
    ConservedAfter(u, s, s', w);
  }

  lemma ProceedKeeps(u: Round, s: State)
    requires Inv(u, s) && Enabled(u, s, Proceed)
    ensures Inv(u, s.(phase := Filling(0)))
  {
    hide Carried, AllWorked, SeatOk, ValidRound;
  }

  lemma SeedKeeps(u: Round, s: State)
    requires Inv(u, s) && Enabled(u, s, Seed)
    ensures Inv(u, DoSeed(u, s))
  {
    hide Conserved, ValidRound, Separated;
    DedicatedFits(u);
    var k := s.phase.next;
    if k == u.dedicated {
      SeededAll(u, s);
    } else {
      assert SeatOk(s.seats[k]);
      SeedOne(u, s);
    }
  }

  lemma SeededAll(u: Round, s: State)
    requires Inv(u, s) && s.phase == Seeding(u.dedicated)
    ensures Inv(u, s.(phase := Awaiting))
  {
    hide Carried, AllWorked, ValidRound, SeatOk;
  }

  lemma SeedOne(u: Round, s: State)
    requires Inv(u, s) && Enabled(u, s, Seed) && s.phase.next < u.dedicated
    ensures Inv(u, DoSeed(u, s))
  {
    hide Conserved, ValidRound;
    DedicatedFits(u);
    var k, s' := s.phase.next, DoSeed(u, s);
    assert SeatOk(s.seats[k]);
    DispatchConserves(u, s, s', k);
    assert forall v | 0 <= v < |s.seats| && v != k :: s'.seats[v] == s.seats[v];
  }

  lemma FillKeeps(u: Round, s: State)
    requires Inv(u, s) && Enabled(u, s, Fill)
    ensures Inv(u, DoFill(u, s))
  {
    hide Conserved, ValidRound;
    DedicatedFits(u);
    var k, s' := s.phase.next, DoFill(u, s);
    if k < u.workers && TakesBulk(u, k) && s.seats[k].inflight.None? && s.bulk != [] {
      assert SeatOk(s.seats[k]);
      DispatchConserves(u, s, s', k);
      assert forall v | 0 <= v < |s.seats| && v != k :: s'.seats[v] == s.seats[v];
    } else {
      FillSkips(u, s);
    }
  }

  lemma FillSkips(u: Round, s: State)
    requires Inv(u, s) && Enabled(u, s, Fill)
    requires var k := s.phase.next; !(k < u.workers && TakesBulk(u, k) && s.seats[k].inflight.None? && s.bulk != [])
    ensures Inv(u, DoFill(u, s))
  {
    hide ValidRound, SeatOk, Conserved, DeferredOk, Separated;
    var s' := DoFill(u, s);
    PhaseAlone(u, s, s'.phase);
  }

  /** Where chunks are does not depend on the phase. */
  lemma PhaseAlone(u: Round, s: State, phase: Phase)
    requires Conserved(u, s) && DeferredOk(s) && Separated(u, s)
    ensures var s' := s.(phase := phase);
            Conserved(u, s') && DeferredOk(s') && Separated(u, s')
  {
    hide Carried, AllWorked, TakesBulk;
  }

  /** The seat's completion has been read, and nothing else is left of its chunk. */
  ghost predicate Spent(seat: Seat, kind: Class, chunk: nat) {
    seat == Seat(Some(kind), false, Free, [], None, Some(chunk))
  }

  /** The invariant, but for a seat whose completion is being handled. */
  ghost predicate InvBut(u: Round, s: State, w: nat, kind: Class, chunk: nat) {
    && ValidRound(u) && Shaped(u, s) && !s.mismatch && s.phase.Serving? && w < u.workers
    && Spent(s.seats[w], kind, chunk)
    && (forall v | 0 <= v < u.workers && v != w :: SeatOk(s.seats[v]))
    && AwaitOk(s) && DeferredOk(s) && Separated(u, s) && Busy(u, s) && Conserved(u, s)
  }

  /** Taking the chunk off its seat conserves the chunks. */
  lemma FreeConserves(u: Round, s: State, w: nat, kind: Class, chunk: nat)
    requires InvBut(u, s, w, kind, chunk)
    ensures var freed := s.(seats := s.seats[w := s.seats[w].(inflight := None, carried := None)], completed := s.completed + [chunk]);
            Conserved(u, freed)
  {
    hide Conserved, Busy, Separated, DeferredOk, AwaitOk, ValidRound, SeatOk;
    var freed := s.(seats := s.seats[w := s.seats[w].(inflight := None, carried := None)], completed := s.completed + [chunk]);
    assert multiset(s.completed + [chunk]) == multiset(s.completed) + multiset{chunk};
    assert Waiting(freed) == Waiting(s) + multiset{chunk};
    ConservedAfter(u, s, freed, w);
  }

  lemma CompletedKeeps(u: Round, s: State, w: nat, kind: Class, chunk: nat)
    requires InvBut(u, s, w, kind, chunk)
    ensures Inv(u, Completed(u, s, w, kind, chunk))
  {
    hide Conserved, ValidRound;
    FreeConserves(u, s, w, kind, chunk);
    var freed := s.(seats := s.seats[w := s.seats[w].(inflight := None, carried := None)], completed := s.completed + [chunk]);
    var s' := Completed(u, s, w, kind, chunk);
    DedicatedFits(u);
    NextConserves(u, freed, s', w);
    assert forall v | 0 <= v < |s.seats| && v != w :: s'.seats[v] == s.seats[v];
    NextIsBusy(u, s, w, kind, chunk);
  }

  lemma NextConserves(u: Round, freed: State, s': State, w: nat)
    requires Conserved(u, freed) && w < |freed.seats| && freed.seats[w] == Seat(None, false, Free, [], None, None)
    requires || s' == freed
             || (freed.stragglers != [] &&
                 s' == Dispatched(freed.(stragglers := freed.stragglers[1..]), w, Straggler, freed.stragglers[0]))
             || (freed.bulk != [] && s' == Dispatched(freed.(bulk := freed.bulk[1..]), w, Bulk, freed.bulk[0]))
    requires !freed.mismatch
    ensures Conserved(u, s')
  {
    hide Conserved;
    if s' != freed {
      DispatchConserves(u, freed, s', w);
    }
  }

  lemma NextIsBusy(u: Round, s: State, w: nat, kind: Class, chunk: nat)
    requires InvBut(u, s, w, kind, chunk)
    ensures var s' := Completed(u, s, w, kind, chunk);
            Shaped(u, s') && Busy(u, s') && Separated(u, s')
  {
    hide Conserved, SeatOk, DeferredOk, AwaitOk;
    DedicatedFits(u);
    var s' := Completed(u, s, w, kind, chunk);
    assert forall v | 0 <= v < |s.seats| && v != w :: s'.seats[v] == s.seats[v];
  }

  lemma RecallKeeps(u: Round, s: State)
    requires Inv(u, s) && Enabled(u, s, Recall)
    ensures Inv(u, Act(u, s, Recall))
  {
    hide ValidRound, Conserved;
    var w := s.deferred[0];
    assert w in s.deferred;
    assert SeatOk(s.seats[w]);
    var parked := s.seats[w].parked.value;
    var recalled := s.(deferred := s.deferred[1..], seats := s.seats[w := s.seats[w].(parked := None)]);
    RecallIsOk(u, s);
    CompletedKeeps(u, recalled, w, parked.kind, parked.chunk);
  }

  lemma RecallIsOk(u: Round, s: State)
    requires Inv(u, s) && Enabled(u, s, Recall)
    ensures var w := s.deferred[0];
            var parked := s.seats[w].parked;
            && parked.Some? && parked.value.Complete?
            && InvBut(u, s.(deferred := s.deferred[1..], seats := s.seats[w := s.seats[w].(parked := None)]), w,
                      parked.value.kind, parked.value.chunk)
  {
    hide ValidRound, Conserved;
    var w := s.deferred[0];
    assert w in s.deferred;
    assert SeatOk(s.seats[w]);
    var s' := s.(deferred := s.deferred[1..], seats := s.seats[w := s.seats[w].(parked := None)]);
    ConservedAfter(u, s, s', w);
    DeferredPops(s, s');
    assert forall v | 0 <= v < |s.seats| && v != w :: s'.seats[v] == s.seats[v];
  }

  lemma DeferredPops(s: State, s': State)
    requires DeferredOk(s) && s.deferred != [] && s.deferred[0] < |s.seats|
    requires s' == s.(deferred := s.deferred[1..], seats := s.seats[s.deferred[0] := s.seats[s.deferred[0]].(parked := None)])
    ensures DeferredOk(s')
  {
    assert s.deferred == [s.deferred[0]] + s'.deferred;
    assert forall i | 0 <= i < |s'.deferred| :: s'.deferred[i] == s.deferred[i + 1];
  }

  lemma HearCompletionKeeps(u: Round, s: State, w: nat)
    requires Inv(u, s) && Enabled(u, s, Hear(w)) && s.phase.Serving? && s.seats[w].replies[0].Complete?
    ensures Inv(u, DoHear(u, s, w))
  {
    hide ValidRound, Conserved, Busy, Separated;
    assert SeatOk(s.seats[w]);
    var reply := s.seats[w].replies[0];
    var heard := s.(seats := s.seats[w := s.seats[w].(replies := s.seats[w].replies[1..])]);
    HeardIsOk(u, s, w);
    CompletedKeeps(u, heard, w, reply.kind, reply.chunk);
  }

  lemma HeardIsOk(u: Round, s: State, w: nat)
    requires Inv(u, s) && Enabled(u, s, Hear(w)) && s.phase.Serving? && s.seats[w].replies[0].Complete?
    ensures var reply := s.seats[w].replies[0];
            InvBut(u, s.(seats := s.seats[w := s.seats[w].(replies := s.seats[w].replies[1..])]), w, reply.kind, reply.chunk)
  {
    hide ValidRound, Conserved;
    assert SeatOk(s.seats[w]);
    var s' := s.(seats := s.seats[w := s.seats[w].(replies := s.seats[w].replies[1..])]);
    ConservedAfter(u, s, s', w);
    assert forall v | 0 <= v < |s.seats| && v != w :: s'.seats[v] == s.seats[v];
  }

  lemma HearStartKeeps(u: Round, s: State, w: nat)
    requires Inv(u, s) && Enabled(u, s, Hear(w)) && s.seats[w].replies[0].Started?
    ensures Inv(u, DoHear(u, s, w))
  {
    hide ValidRound, Conserved, Separated, Busy;
    assert SeatOk(s.seats[w]);
    var seat := s.seats[w];
    var rest := seat.(replies := seat.replies[1..], awaiting := false);
    var s' := s.(seats := s.seats[w := rest]);
    ConservedAfter(u, s, s', w);
    StartHeard(u, s, s', w);
  }

  lemma StartHeard(u: Round, s: State, s': State, w: nat)
    requires Inv(u, s) && Enabled(u, s, Hear(w)) && s.seats[w].replies[0].Started? && Conserved(u, s')
    requires s' == s.(seats := s.seats[w := s.seats[w].(replies := s.seats[w].replies[1..], awaiting := false)])
    ensures Inv(u, s')
  {
    hide ValidRound, Conserved;
    assert SeatOk(s.seats[w]);
    assert forall v | 0 <= v < |s.seats| && v != w :: s'.seats[v] == s.seats[v];
  }

  lemma ParkKeeps(u: Round, s: State, w: nat)
    requires Inv(u, s) && Enabled(u, s, Hear(w)) && s.phase.Awaiting? && s.seats[w].replies[0].Complete?
    ensures Inv(u, DoHear(u, s, w))
  {
    hide ValidRound, Conserved, DeferredOk, Bag, Joined, TakesBulk;
    assert SeatOk(s.seats[w]);
    NotParked(s, w);
    var s' := DoHear(u, s, w);
    ConservedAfter(u, s, s', w);
    DeferredPushes(s, s', w);
    assert forall v | 0 <= v < |s.seats| && v != w :: s'.seats[v] == s.seats[v];
  }

  lemma NotParked(s: State, w: nat)
    requires w < |s.seats| && SeatOk(s.seats[w]) && s.seats[w].replies != []
    ensures s.seats[w].parked.None?
  {
  }

  lemma DeferredPushes(s: State, s': State, w: nat)
    requires DeferredOk(s) && w < |s.seats| && |s'.seats| == |s.seats| && s.seats[w].parked.None?
    requires s'.deferred == s.deferred + [w] && s'.seats == s.seats[w := s'.seats[w]] && s'.seats[w].parked.Some?
    ensures DeferredOk(s')
  {
    forall v | 0 <= v < |s.seats|
      ensures s'.seats[v].parked.Some? <==> v in s'.deferred
    {
      assert v != w ==> s'.seats[v] == s.seats[v];
    }
  }

  lemma HearKeeps(u: Round, s: State, w: nat)
    requires Inv(u, s) && Enabled(u, s, Hear(w))
    ensures Inv(u, DoHear(u, s, w))
  {
    hide AwaitOk, DeferredOk, Separated, Busy, Conserved, DoHear;
    if s.seats[w].replies[0].Started? {
      HearStartKeeps(u, s, w);
    } else if s.phase.Awaiting? {
      ParkKeeps(u, s, w);
    } else {
      HearCompletionKeeps(u, s, w);
    }
  }

  lemma ActKeeps(u: Round, s: State, a: Action)
    requires Inv(u, s) && Enabled(u, s, a)
    ensures Inv(u, Act(u, s, a))
  {
    hide Inv, DoSeed, DoHear, DoFill, Enabled, Completed;
    match a
    case Seed => SeedKeeps(u, s);
    case Begin(w) => BeginKeeps(u, s, w);
    case Finish(w) => FinishKeeps(u, s, w);
    case Hear(w) => HearKeeps(u, s, w);
    case Proceed => ProceedKeeps(u, s);
    case Recall => RecallKeeps(u, s);
    case Fill => FillKeeps(u, s);
  }
}
