/** The dynamic dispatcher of one round: chunks go to workers as they become free.

Stragglers run on dedicated workers, bulk chunks on the others; a single worker runs both. Each
action is one step of the coordinator or of one worker. A step that finds an answer it does not
expect, or a busy worker where it dispatches, ends in a mismatch. */
module Dispatch {
  import opened Basics
  import opened Events

  datatype Class = Straggler | Bulk

  /** How many workers are set aside for stragglers. */
  function DedicatedCount(workers: nat, configured: nat, stragglers: nat, bulk: nat): nat {
    if stragglers == 0 then 0
    else Min(Min(configured, stragglers), if bulk == 0 then workers else Max(if workers == 0 then 0 else workers - 1, 1))
  }

  /** Splits the bulk work into chunks of `size`. */
  method Chunked<T>(bulk: seq<T>, size: nat) returns (chunks: seq<seq<T>>)
    requires size > 0
    ensures Joined(chunks) == bulk
    ensures forall c | 0 <= c < |chunks| :: 0 < |chunks[c]| <= size
    ensures forall c | 0 <= c < |chunks| - 1 :: |chunks[c]| == size
  {
    hide Joined;
    chunks := [];
    NothingJoined<T>();
    var taken := 0;
    while taken < |bulk|
      invariant 0 <= taken <= |bulk| && Joined(chunks) == bulk[..taken]
      invariant forall c | 0 <= c < |chunks| :: 0 < |chunks[c]| <= size
      invariant forall c | 0 <= c < |chunks| && (taken < |bulk| || c < |chunks| - 1) :: |chunks[c]| == size
    {
      var end := Min(taken + size, |bulk|);
      var chunk := bulk[taken..end];
      JoinedSnoc(chunks, chunk);
      assert bulk[..end] == bulk[..taken] + chunk;
      chunks, taken := chunks + [chunk], end;
    }
    assert bulk[..taken] == bulk;
  }

  lemma NothingJoined<T>()
    ensures Joined<T>([]) == []
  {
  }

  function Joined<T>(chunks: seq<seq<T>>): seq<T> {
    if chunks == [] then [] else Joined(chunks[..|chunks| - 1]) + chunks[|chunks| - 1]
  }

  lemma JoinedSnoc<T>(chunks: seq<seq<T>>, chunk: seq<T>)
    ensures Joined(chunks + [chunk]) == Joined(chunks) + chunk
  {
    assert (chunks + [chunk])[..|chunks|] == chunks;
  }

  datatype Reply = Started(kind: Class) | Complete(kind: Class, chunk: nat)

  datatype Worker = Free | Ordered(kind: Class, chunk: nat) | Working(kind: Class, chunk: nat)

  datatype Phase = Seeding(next: nat) | Awaiting | Filling(next: nat) | Serving

  /** What the coordinator knows of a worker, what the worker does, its unread answers and a completion
      put aside until all stragglers have started. The chunk in flight is history. */
  datatype Seat = Seat(
    inflight: Option<Class>, awaiting: bool, worker: Worker, replies: seq<Reply>, parked: Option<Reply>, carried: Option<nat>)

  datatype State = State(
    phase: Phase, stragglers: seq<nat>, bulk: seq<nat>, seats: seq<Seat>, deferred: seq<nat>, completed: seq<nat>,
    executed: multiset<nat>, mismatch: bool)

  datatype Round = Round(workers: nat, dedicated: nat, stragglers: seq<nat>, bulk: seq<nat>)

  ghost predicate ValidRound(u: Round) {
    && u.workers > 0
    && exists configured: nat :: configured > 0 &&
         u.dedicated == DedicatedCount(u.workers, configured, |u.stragglers|, |u.bulk|)
  }

  /** The workers that take bulk chunks: those not set aside, or the only one there is. */
  predicate TakesBulk(u: Round, w: nat) {
    if u.dedicated < u.workers then u.dedicated <= w else u.bulk != [] && w == 0
  }

  lemma DedicatedFits(u: Round)
    requires ValidRound(u)
    ensures u.dedicated <= u.workers && u.dedicated <= |u.stragglers|
    ensures u.stragglers != [] ==> u.dedicated > 0
    ensures u.bulk != [] && u.dedicated == u.workers ==> u.workers == 1
  {
  }

  ghost function Initial(u: Round): State {
    State(Seeding(0), u.stragglers, u.bulk, seq(u.workers, _ => Seat(None, false, Free, [], None, None)), [], [], multiset{}, false)
  }

  ghost predicate Shaped(u: Round, s: State) {
    && |s.seats| == u.workers && u.dedicated <= u.workers
    && |s.stragglers| <= |u.stragglers| && |s.bulk| <= |u.bulk|
    && (s.phase.Seeding? ==> s.phase.next <= u.dedicated)
    && (s.phase.Filling? ==> s.phase.next <= u.workers)
    && (forall i | 0 <= i < |s.deferred| :: s.deferred[i] < u.workers)
  }

  ghost predicate Ended(u: Round, s: State) { s.phase.Serving? && |s.completed| == |u.stragglers| + |u.bulk| }

  /** A dedicated worker has not reported its start yet. */
  ghost predicate SomeAwaited(s: State) { exists w :: 0 <= w < |s.seats| && s.seats[w].awaiting }

  datatype Action = Seed | Begin(w: nat) | Finish(w: nat) | Hear(w: nat) | Proceed | Recall | Fill

  ghost predicate Enabled(u: Round, s: State, a: Action)
    requires Shaped(u, s)
  {
    && !s.mismatch && !Ended(u, s)
    && match a
       case Seed => s.phase.Seeding?
       case Begin(w) => w < u.workers && s.seats[w].worker.Ordered?
       case Finish(w) => w < u.workers && s.seats[w].worker.Working?
       case Hear(w) =>
         && w < u.workers && s.seats[w].replies != []
         && ((s.phase.Awaiting? && SomeAwaited(s)) || (s.phase.Serving? && s.deferred == []))
       case Proceed => s.phase.Awaiting? && !SomeAwaited(s)
       case Recall => s.phase.Serving? && s.deferred != []
       case Fill => s.phase.Filling?
  }

  /** Hands a chunk to a worker, which must not have one. */
  function Dispatched(s: State, w: nat, kind: Class, chunk: nat): State
    requires w < |s.seats|
  {
    var seat := s.seats[w];
    if seat.inflight.Some? then s.(mismatch := true)
    else s.(seats := s.seats[w := seat.(inflight := Some(kind), worker := Ordered(kind, chunk), carried := Some(chunk))])
  }

  /** After a completion: the worker gets the next chunk of its class; a straggler worker that also
      takes bulk goes on with bulk when no straggler is left. */
  function Completed(u: Round, s: State, w: nat, kind: Class, chunk: nat): State
    requires w < |s.seats|
  {
    if s.seats[w].inflight != Some(kind) then s.(mismatch := true)
    else
      var freed := s.(seats := s.seats[w := s.seats[w].(inflight := None, carried := None)], completed := s.completed + [chunk]);
      if kind.Straggler? && s.stragglers != [] then
        Dispatched(freed.(stragglers := s.stragglers[1..]), w, Straggler, s.stragglers[0])
      else if s.bulk != [] && (kind.Bulk? || TakesBulk(u, w)) then
        Dispatched(freed.(bulk := s.bulk[1..]), w, Bulk, s.bulk[0])
      else freed
  }

  function DoSeed(u: Round, s: State): State
    requires Shaped(u, s) && Enabled(u, s, Seed)
  {
    var k := s.phase.next;
    if k == u.dedicated then s.(phase := Awaiting)
    else if s.stragglers == [] then s.(phase := Seeding(k + 1))
    else
      var sent := Dispatched(s.(phase := Seeding(k + 1), stragglers := s.stragglers[1..]), k, Straggler, s.stragglers[0]);
      sent.(seats := sent.seats[k := sent.seats[k].(awaiting := true)])
  }

  function DoHear(u: Round, s: State, w: nat): State
    requires Shaped(u, s) && Enabled(u, s, Hear(w))
  {
    var seat := s.seats[w];
    var reply, rest := seat.replies[0], seat.(replies := seat.replies[1..]);
    var heard := s.(seats := s.seats[w := rest]);
    if s.phase.Awaiting? then
      match reply
      case Started(kind) =>
        if kind.Straggler? && seat.awaiting then s.(seats := s.seats[w := rest.(awaiting := false)])
        else s.(mismatch := true)
      case Complete(_, _) =>
        if seat.parked.Some? then s.(mismatch := true)
        else s.(seats := s.seats[w := rest.(parked := Some(reply))], deferred := s.deferred + [w])
    else
      match reply
      case Started(kind) => if seat.inflight == Some(kind) then heard else s.(mismatch := true)
      case Complete(kind, chunk) => Completed(u, heard, w, kind, chunk)
  }

  function DoFill(u: Round, s: State): State
    requires Shaped(u, s) && Enabled(u, s, Fill)
  {
    var k := s.phase.next;
    if k == u.workers then s.(phase := Serving)
    else
      var on := s.(phase := Filling(k + 1));
      if TakesBulk(u, k) && s.seats[k].inflight.None? && s.bulk != [] then
        Dispatched(on.(bulk := s.bulk[1..]), k, Bulk, s.bulk[0])
      else on
  }

  function Act(u: Round, s: State, a: Action): State
    requires Shaped(u, s) && Enabled(u, s, a)
  {
    match a
    case Seed => DoSeed(u, s)
    case Begin(w) =>
      var seat := s.seats[w];
      s.(seats := s.seats[w := seat.(worker := Working(seat.worker.kind, seat.worker.chunk),
                                     replies := seat.replies + [Started(seat.worker.kind)])])
    case Finish(w) =>
      var seat := s.seats[w];
      s.(seats := s.seats[w := seat.(worker := Free,
                                     replies := seat.replies + [Complete(seat.worker.kind, seat.worker.chunk)])],
         executed := s.executed + multiset{seat.worker.chunk})
    case Hear(w) => DoHear(u, s, w)
    case Proceed => s.(phase := Filling(0))
    case Recall =>
      var w := s.deferred[0];
      var parked := s.seats[w].parked;
      if parked.None? || !parked.value.Complete? then s.(mismatch := true)
      else
        var recalled := s.(deferred := s.deferred[1..], seats := s.seats[w := s.seats[w].(parked := None)]);
        Completed(u, recalled, w, parked.value.kind, parked.value.chunk)
    case Fill => DoFill(u, s)
  }

  /** A seat is empty, or its one chunk is on its way through: ordered, worked on, answered or parked. */
  ghost predicate SeatOk(seat: Seat) {
    match seat.carried
    case None =>
      seat.inflight.None? && !seat.awaiting && seat.worker.Free? && seat.replies == [] && seat.parked.None?
    case Some(chunk) =>
      && seat.inflight.Some?
      && (seat.awaiting ==> seat.inflight.value.Straggler?)
      && var kind := seat.inflight.value;
         || (seat.worker == Ordered(kind, chunk) && seat.replies == [] && seat.parked.None?)
         || (seat.worker == Working(kind, chunk) && seat.parked.None? &&
             (seat.replies == [Started(kind)] || (seat.replies == [] && !seat.awaiting)))
         || (seat.worker.Free? && seat.parked.None? &&
             (seat.replies == [Started(kind), Complete(kind, chunk)] || (seat.replies == [Complete(kind, chunk)] && !seat.awaiting)))
         || (seat.worker.Free? && seat.replies == [] && !seat.awaiting && seat.parked == Some(Complete(kind, chunk)))
  }

  /** The worker's start has not been read yet. */
  predicate StartUnread(seat: Seat) {
    seat.worker.Ordered? || (seat.replies != [] && seat.replies[0].Started?)
  }

  /** Before all stragglers have started, unread starts are exactly the awaited ones; later none is awaited. */
  ghost predicate AwaitOk(s: State) {
    forall w | 0 <= w < |s.seats| ::
      if s.phase.Seeding? || s.phase.Awaiting? then s.seats[w].awaiting == StartUnread(s.seats[w])
      else !s.seats[w].awaiting
  }

  ghost predicate DeferredOk(s: State) {
    && (forall w | 0 <= w < |s.seats| :: s.seats[w].parked.Some? <==> w in s.deferred)
    && (forall i, j | 0 <= i < j < |s.deferred| :: s.deferred[i] != s.deferred[j])
  }

  /** Stragglers run on dedicated workers only, bulk on bulk workers only. */
  ghost predicate Separated(u: Round, s: State) {
    forall w | 0 <= w < |s.seats| && s.seats[w].inflight.Some? ::
      if s.seats[w].inflight.value.Straggler? then w < u.dedicated else TakesBulk(u, w)
  }

  /** While chunks of a kind wait, every worker of that kind is busy. */
  ghost predicate Busy(u: Round, s: State)
    requires Shaped(u, s)
  {
    match s.phase
    case Seeding(next) =>
      && s.bulk == u.bulk && |s.stragglers| + next == |u.stragglers|
      && (forall w | 0 <= w < u.workers :: s.seats[w].inflight == if w < next then Some(Straggler) else None)
    case Awaiting =>
      && s.bulk == u.bulk
      && (forall w | 0 <= w < u.workers :: s.seats[w].inflight == if w < u.dedicated then Some(Straggler) else None)
    case Filling(next) =>
      && (s.stragglers != [] ==> forall w | 0 <= w < u.dedicated :: s.seats[w].inflight == Some(Straggler))
      && (s.bulk != [] ==> forall w | 0 <= w < next && TakesBulk(u, w) :: s.seats[w].inflight.Some?)
      && (u.dedicated == u.workers ==> forall w | 0 <= w < u.workers :: s.seats[w].inflight == Some(Straggler))
    case Serving =>
      && (s.stragglers != [] ==> forall w | 0 <= w < u.dedicated :: s.seats[w].inflight == Some(Straggler))
      && (s.bulk != [] ==> forall w | 0 <= w < u.workers && TakesBulk(u, w) :: s.seats[w].inflight.Some?)
  }

  function One(chunk: Option<nat>): multiset<nat> { if chunk.Some? then multiset{chunk.value} else multiset{} }

  function Bag(slots: seq<Option<nat>>): multiset<nat> {
    if slots == [] then multiset{} else Bag(slots[..|slots| - 1]) + One(slots[|slots| - 1])
  }

  /** The chunks in flight. */
  function Carried(seats: seq<Seat>): multiset<nat> {
    Bag(seq(|seats|, w requires 0 <= w < |seats| => seats[w].carried))
  }

  /** The chunk of a seat that its worker has finished with. */
  function Worked(seat: Seat): Option<nat> { if seat.worker.Free? then seat.carried else None }

  function AllWorked(seats: seq<Seat>): multiset<nat> {
    Bag(seq(|seats|, w requires 0 <= w < |seats| => Worked(seats[w])))
  }

  lemma AddBoth(a: multiset<nat>, b: multiset<nat>, c: multiset<nat>, d: multiset<nat>, more: multiset<nat>)
    requires a + b == c + d
    ensures a + more + b == c + more + d
  {
    assert a + more + b == a + b + more;
    assert c + more + d == c + d + more;
  }

  lemma {:induction false} BagUpdate(slots: seq<Option<nat>>, w: nat, x: Option<nat>)
    requires w < |slots|
    ensures Bag(slots[w := x]) + One(slots[w]) == Bag(slots) + One(x)
  {
    hide One;
    var init, last := slots[..|slots| - 1], slots[|slots| - 1];
    if w < |slots| - 1 {
      BagUpdate(init, w, x);
      assert slots[w := x][..|slots| - 1] == init[w := x];
      AddBoth(Bag(init[w := x]), One(slots[w]), Bag(init), One(x), One(last));
    } else {
      assert slots[w := x][..|slots| - 1] == init;
      assert Bag(init) + One(x) + One(last) == Bag(init) + One(last) + One(x);
    }
  }

  lemma SeatUpdate(seats: seq<Seat>, w: nat, seat: Seat)
    requires w < |seats|
    ensures Carried(seats[w := seat]) + One(seats[w].carried) == Carried(seats) + One(seat.carried)
    ensures AllWorked(seats[w := seat]) + One(Worked(seats[w])) == AllWorked(seats) + One(Worked(seat))
  {
    hide Bag, One, Worked;
    var after := seats[w := seat];
    var carried := seq(|seats|, v requires 0 <= v < |seats| => seats[v].carried);
    var worked := seq(|seats|, v requires 0 <= v < |seats| => Worked(seats[v]));
    BagUpdate(carried, w, seat.carried);
    BagUpdate(worked, w, Worked(seat));
    assert carried[w := seat.carried] == seq(|after|, v requires 0 <= v < |after| => after[v].carried);
    assert worked[w := Worked(seat)] == seq(|after|, v requires 0 <= v < |after| => Worked(after[v]));
  }

  /** Every chunk is in one place, and every finished one was executed once. */
  ghost predicate Conserved(u: Round, s: State) {
    && multiset(s.stragglers) + multiset(s.bulk) + Carried(s.seats) + multiset(s.completed) ==
       multiset(u.stragglers) + multiset(u.bulk)
    && s.executed == multiset(s.completed) + AllWorked(s.seats)
  }

  ghost predicate Inv(u: Round, s: State) {
    && ValidRound(u) && Shaped(u, s) && !s.mismatch
    && (forall w | 0 <= w < u.workers :: SeatOk(s.seats[w]))
    && AwaitOk(s) && DeferredOk(s) && Separated(u, s) && Busy(u, s) && Conserved(u, s)
    && (s.phase.Seeding? ==> s.deferred == [])
  }

  /** Every worker that may be set aside is: the count is the greatest that neither exceeds the configured one nor
      the stragglers, and leaves a worker for bulk if there is bulk and more than one worker. */
  lemma DedicatedIsMost(workers: nat, configured: nat, stragglers: nat, bulk: nat, n: nat)
    requires workers > 0 && n <= configured && n <= stragglers && n <= workers && (bulk > 0 && workers > 1 ==> n < workers)
    ensures n <= DedicatedCount(workers, configured, stragglers, bulk)
    ensures DedicatedCount(workers, configured, stragglers, bulk) <= configured
    ensures DedicatedCount(workers, configured, stragglers, bulk) <= stragglers
  {
  }
}
