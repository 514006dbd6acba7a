/** What every reachable state of the worker pool keeps. */
module PoolInvariant {
  import opened Events
  import opened LogicalProcess
  import opened Rounds
  import opened Executor
  import opened PoolState

  /** The workers that sent something to worker `w`. */
  ghost function Sources(u: Setup, ds: Round, w: nat): set<nat>
    requires |ds| == |u.owner|
  {
    set v | 0 <= v < u.workers && Sent(u.owner, ds, v, w) != {}
  }

  /** What the workers in `from` sent to process `i`. */
  ghost function Received(owner: seq<nat>, ds: Round, from: set<nat>, i: nat): set<Event>
    requires |ds| == |owner|
  {
    set j, e | 0 <= j < |ds| && owner[j] in from && e in ds[j].outbox && e.target == i :: e
  }

  /** Process `i` with what the workers in `from` sent to it. */
  ghost function Filled(owner: seq<nat>, ds: Round, from: set<nat>, i: nat): Lp
    requires |ds| == |owner| && i < |ds|
  {
    Lp(ds[i].lp.state, ds[i].lp.pending + Received(owner, ds, from, i))
  }

  /** The processes of `w` hold what the drains left them and what the workers in `from` sent. */
  ghost predicate Holds(owner: seq<nat>, lps: seq<Lp>, ds: Round, w: nat, from: set<nat>)
    requires |lps| == |ds| == |owner|
  {
    forall i | 0 <= i < |lps| && owner[i] == w :: lps[i] == Filled(owner, ds, from, i)
  }

  /** What the workers in `from` sent to `w` could be merged. */
  ghost predicate Took(owner: seq<nat>, ds: Round, w: nat, from: set<nat>, floor: nat)
    requires |ds| == |owner|
  {
    forall i | 0 <= i < |ds| && owner[i] == w ::
      && UniqueKeys(Filled(owner, ds, from, i).pending)
      && forall e | e in Received(owner, ds, from, i) :: floor <= e.key.time
  }

  ghost predicate Accepted(u: Setup, ds: Round, w: nat, floor: nat)
    requires |ds| == |u.owner|
  {
    Took(u.owner, ds, w, Sources(u, ds, w), floor)
  }

  ghost predicate KnownTargets(ds: Round) {
    forall j, e {:trigger e in ds[j].outbox} | 0 <= j < |ds| && e in ds[j].outbox :: e.target < |ds|
  }

  /** Worker `w` has drained the processes that the barrier after `prev` gave it. */
  ghost predicate DrainedBy(u: Setup, prev: Round, now: Round, w: nat, horizon: nat)
    requires |prev| == |now| == |u.owner| <= TIME_AFTER_U64_MAX
  {
    forall i | 0 <= i < |now| && u.owner[i] == w ::
      && UniqueKeys(Merged(prev, i).pending)
      && DrainLp(u.m, i, Merged(prev, i), horizon, u.plan.capacity) == Some(now[i])
      && forall e | e in now[i].outbox :: e.target < |now|
  }

  /** The events that worker `w` holds or will merge. */
  ghost function HeldAt(owner: seq<nat>, ds: Round, w: nat): set<Event>
    requires |ds| == |owner|
  {
    set i, e | 0 <= i < |ds| && owner[i] == w && e in Merged(ds, i).pending :: e
  }

  /** Where a worker stands in round `r`. */
  datatype Mode = Behind | Draining | Ahead | Left

  function ModeOf(worker: Worker, r: nat): Mode {
    match worker.stage
    case Starting => Behind
    case Waiting(_, _, _) => if worker.round == r then Behind else Ahead
    case Sending(_, _, _, _) => Draining
    case Gone => Left
  }

  /** Worker `v` has put its batch of round `r` for worker `w` into the inbox of `w`. */
  predicate HasSent(worker: Worker, r: nat, w: nat) {
    (worker.stage.Sending? && w < |worker.stage.metadata|) || ModeOf(worker, r) == Ahead
  }

  /** Batches of the last completed round that `w` has yet to merge. */
  ghost function OldMail(u: Setup, r: nat, h: History, workers: seq<Worker>, w: nat): set<Batch>
    requires |h.prev| == |u.owner| && |workers| == |h.merged| == u.workers && w < u.workers
  {
    if r > 0 && ModeOf(workers[w], r) == Behind then
      set v | v in Sources(u, h.prev, w) - h.merged[w] :: Batch(r - 1, v, Sent(u.owner, h.prev, v, w))
    else {}
  }

  /** Batches of the round under way. */
  ghost function NewMail(u: Setup, r: nat, h: History, workers: seq<Worker>, w: nat): set<Batch>
    requires |h.now| == |u.owner| && |workers| == |h.merged| == u.workers && w < u.workers
  {
    set v | v in Sources(u, h.now, w) && HasSent(workers[v], r, w) && !(ModeOf(workers[w], r) == Ahead && v in h.merged[w])
      :: Batch(r, v, Sent(u.owner, h.now, v, w))
  }

  /** The queues of `w` hold exactly the batches that are due, each once. */
  ghost predicate MailIsDue(u: Setup, r: nat, h: History, workers: seq<Worker>, inbox: seq<Batch>, w: nat)
    requires |h.prev| == |h.now| == |u.owner| && |workers| == |h.merged| == u.workers && w < u.workers
  {
    multiset(workers[w].pending) + multiset(inbox) ==
    multiset(OldMail(u, r, h, workers, w) + NewMail(u, r, h, workers, w))
  }

  /** A waiting worker has merged the batches of `from`, and keeps aside only those of the next round. */
  ghost predicate Waits(worker: Worker, from: set<nat>, sources: set<nat>) {
    && worker.stage.Waiting?
    && from <= sources && worker.stage.merged == |from|
    && worker.stage.scan <= |worker.pending|
    && (forall k | worker.stage.scan <= k < |worker.pending| :: worker.pending[k].round == worker.round)
  }

  ghost predicate IsBehind(u: Setup, r: nat, h: History, lps: seq<Lp>, worker: Worker, w: nat)
    requires |h.prev| == |lps| == |u.owner| && |h.merged| == u.workers && w < u.workers
  {
    && worker.round == r
    && worker.completed == (if r == 0 then None else Some(Completed(r - 1, h.floor)))
    && Holds(u.owner, lps, h.prev, w, h.merged[w])
    && Took(u.owner, h.prev, w, h.merged[w], h.floor)
    && (if worker.stage.Starting? then r == 0 && worker.pending == [] && h.merged[w] == {}
        else Waits(worker, h.merged[w], Sources(u, h.prev, w)))
    && (r == 0 ==> worker.pending == [])
  }

  ghost predicate Launched(u: Setup, h: History, w: nat, horizon: nat)
    requires |h.prev| == |h.now| == |u.owner| <= TIME_AFTER_U64_MAX
  {
    Accepted(u, h.prev, w, h.floor) && DrainedBy(u, h.prev, h.now, w, horizon)
  }

  ghost predicate IsDraining(u: Setup, r: nat, h: History, lps: seq<Lp>, worker: Worker, w: nat, horizon: nat)
    requires |h.prev| == |h.now| == |lps| == |u.owner| <= TIME_AFTER_U64_MAX && |h.merged| == u.workers && w < u.workers
  {
    && worker.stage.Sending? && worker.round == r && worker.stage.horizon == horizon
    && Launched(u, h, w, horizon)
    && h.merged[w] == {} && Holds(u.owner, lps, h.now, w, {})
    && Reports(u, h.now, w, worker.stage.metadata, worker.stage.minimum)
    && |worker.stage.remote| == u.workers
    && (forall o | 0 <= o < u.workers :: worker.stage.remote[o] == Sent(u.owner, h.now, w, o))
    && (forall b | b in worker.pending :: b.round == r)
  }

  /** The metadata and the minimum are those of what `w` drained, as far as they go. */
  ghost predicate Reports(u: Setup, ds: Round, w: nat, metadata: seq<Metadata>, minimum: Option<U64>)
    requires |ds| == |u.owner|
  {
    && |metadata| <= u.workers
    && (forall o | 0 <= o < |metadata| :: metadata[o] == MetadataOf(Sent(u.owner, ds, w, o)))
    && minimum == MinTime(Kept(u.owner, ds, w))
  }

  /** What the drains of `w` left in its event lists. */
  ghost function Kept(owner: seq<nat>, ds: Round, w: nat): set<Event>
    requires |ds| == |owner|
  {
    set i, e | 0 <= i < |ds| && owner[i] == w && e in ds[i].lp.pending :: e
  }

  ghost predicate IsAhead(u: Setup, r: nat, h: History, lps: seq<Lp>, worker: Worker, w: nat, horizon: nat)
    requires |h.prev| == |h.now| == |lps| == |u.owner| <= TIME_AFTER_U64_MAX && |h.merged| == u.workers && w < u.workers
  {
    && worker.round == r + 1 && r < U64_MAX
    && worker.completed == Some(Completed(r, horizon))
    && Launched(u, h, w, horizon)
    && Holds(u.owner, lps, h.now, w, h.merged[w])
    && Took(u.owner, h.now, w, h.merged[w], horizon)
    && Waits(worker, h.merged[w], Sources(u, h.now, w))
    && worker.stage.held.None?
  }

  ghost predicate IsGone(u: Setup, r: nat, h: History, lps: seq<Lp>, worker: Worker, w: nat)
    requires |h.prev| == |lps| == |u.owner| && |h.merged| == u.workers && w < u.workers
  {
    && worker.stage.Gone? && worker.round == r
    && Accepted(u, h.prev, w, h.floor) && h.merged[w] == Sources(u, h.prev, w)
    && Holds(u.owner, lps, h.prev, w, Sources(u, h.prev, w))
  }

  /** What the coordinator has last asked of a worker. */
  datatype Order = Entering | Idle | Ordered(command: Command) | Reported(horizon: nat, report: Report) | Dismissed

  ghost function OrderOf(c: Coordinator, w: nat): Order
    requires w < |c.expected|
    requires c.duty.Preparing? ==> w < |c.duty.ready|
    requires c.duty.Collecting? ==> w < |c.duty.reports|
    requires c.duty.Gathering? ==> w < |c.duty.finished|
  {
    match c.duty
    case Preparing(ready) => if ready[w] then Idle else Entering
    case Deciding => Idle
    case Publishing(horizon, next) => if w < next then Ordered(RunRound(horizon, c.expected[w])) else Idle
    case Collecting(horizon, reports) =>
      if reports[w].None? then Ordered(RunRound(horizon, c.expected[w])) else Reported(horizon, reports[w].value)
    case Closing(next) => if w < next then Ordered(Finish(c.expected[w])) else Idle
    case Gathering(finished) => if finished[w] then Dismissed else Ordered(Finish(c.expected[w]))
    case Over => Dismissed
  }

  /** A worker that took its command drains, or has answered. */
  ghost predicate Proceeds(u: Setup, r: nat, h: History, lps: seq<Lp>, worker: Worker, reply: Option<Reply>, w: nat,
                           command: Command)
    requires |h.prev| == |h.now| == |lps| == |u.owner| <= TIME_AFTER_U64_MAX && |h.merged| == u.workers && w < u.workers
  {
    match command
    case Finish(_) => IsGone(u, r, h, lps, worker, w) && reply == Some(Finished)
    case RunRound(horizon, _) =>
      if worker.stage.Sending? then reply.None? && IsDraining(u, r, h, lps, worker, w, horizon)
      else
        && IsAhead(u, r, h, lps, worker, w, horizon)
        && reply.Some? && reply.value.RoundComplete? && reply.value.round == r
        && |reply.value.metadata| == u.workers
        && Reports(u, h.now, w, reply.value.metadata, reply.value.minimum)
  }

  /** A worker does what it was asked: it waits, or holds the command, or drains, or has answered. */
  ghost predicate Obeys(u: Setup, r: nat, h: History, lps: seq<Lp>, worker: Worker,
                        channel: Option<Command>, reply: Option<Reply>, w: nat, order: Order)
    requires |h.prev| == |h.now| == |lps| == |u.owner| <= TIME_AFTER_U64_MAX && |h.merged| == u.workers && w < u.workers
  {
    match order
    case Entering =>
      && channel.None? && IsBehind(u, r, h, lps, worker, w) && r == 0
      && (if worker.stage.Starting? then reply.None?
          else worker.stage.held.None? && reply == Some(Ready(MinTime(HeldAt(u.owner, h.prev, w)))))
    case Idle =>
      channel.None? && reply.None? && IsBehind(u, r, h, lps, worker, w) && worker.stage.Waiting? && worker.stage.held.None?
    case Ordered(command) =>
      if worker.stage.Waiting? && worker.round == r then
        && IsBehind(u, r, h, lps, worker, w) && reply.None?
        && ((channel == Some(command) && worker.stage.held.None?) || (channel.None? && worker.stage.held == Some(command)))
      else channel.None? && Proceeds(u, r, h, lps, worker, reply, w, command)
    case Reported(horizon, report) =>
      && channel.None? && reply.None? && IsAhead(u, r, h, lps, worker, w, horizon)
      && |report.metadata| == u.workers && Reports(u, h.now, w, report.metadata, report.minimum)
    case Dismissed => channel.None? && reply.None? && IsGone(u, r, h, lps, worker, w)
  }

  /** Each owner's published count and minimum are those of what it holds and has yet to merge. */
  ghost predicate Published(u: Setup, prev: Round, c: Coordinator)
    requires |prev| == |u.owner| && |c.minima| == |c.expected| == u.workers
  {
    forall w | 0 <= w < u.workers ::
      && c.expected[w] == |Sources(u, prev, w)|
      && c.minima[w] == MinTime(HeldAt(u.owner, prev, w))
  }

  /** What the coordinator has decided fits the configuration at the barrier. */
  ghost predicate Decided(u: Setup, prev: Round, c: Coordinator)
    requires |prev| == |u.owner| && |c.minima| == |c.expected| == u.workers
    requires c.duty.Preparing? ==> |c.duty.ready| == u.workers
  {
    match c.duty
    case Preparing(ready) =>
      && c.round == 0 && (exists w :: 0 <= w < u.workers && !ready[w])
      && (forall w | 0 <= w < u.workers :: c.expected[w] == 0)
      && (forall w | 0 <= w < u.workers && ready[w] :: c.minima[w] == MinTime(HeldAt(u.owner, prev, w)))
    case Deciding => Published(u, prev, c)
    case Publishing(horizon, _) =>
      && Published(u, prev, c) && !Ended(Barrier(prev), u.plan.runEnd)
      && horizon == Horizon(Frontier(Barrier(prev)).value, u.plan.lookahead, u.plan.runEnd)
    case Collecting(horizon, reports) =>
      && Published(u, prev, c) && !Ended(Barrier(prev), u.plan.runEnd)
      && horizon == Horizon(Frontier(Barrier(prev)).value, u.plan.lookahead, u.plan.runEnd)
      && (exists w :: 0 <= w < |reports| && reports[w].None?)
    case Gathering(finished) =>
      && Published(u, prev, c) && Ended(Barrier(prev), u.plan.runEnd)
      && (exists w :: 0 <= w < |finished| && !finished[w])
    case _ => Published(u, prev, c) && Ended(Barrier(prev), u.plan.runEnd)
  }

  ghost predicate AcceptedByAll(u: Setup, ds: Round, floor: nat)
    requires |ds| == |u.owner|
  {
    forall w | 0 <= w < u.workers :: Accepted(u, ds, w, floor)
  }

  /** If every worker can merge what was sent to it, the rounds so far are those of the executor; if
      some worker cannot, the executor fails as well. */
  ghost predicate Confirmed(u: Setup, prev: Round, floor: nat, r: nat)
    requires ValidSetup(u) && |prev| == |u.owner|
  {
    && r <= U64_MAX
    && (AcceptedByAll(u, prev, floor) ==>
          && WellKeyed(Barrier(prev))
          && RunRounds(u.m, u.config, u.plan, U64_MAX) == RunRounds(u.m, Barrier(prev), u.plan, U64_MAX - r))
    && (!AcceptedByAll(u, prev, floor) ==> RunRounds(u.m, u.config, u.plan, U64_MAX) == None)
  }

  ghost predicate Inv(u: Setup, s: Pool)
    requires ValidSetup(u)
  {
    && Shaped(u, s)
    && !s.status.Mismatch?
    && (s.status.Running? ==> Steady(u, s))
  }

  ghost predicate Steady(u: Setup, s: Pool)
    requires ValidSetup(u) && Shaped(u, s)
  {
    var r, h := s.coordinator.round, s.history;
    && r <= U64_MAX
    && KnownTargets(h.prev) && (r == 0 ==> h.prev == Start(u.config))
    && Decided(u, h.prev, s.coordinator)
    && Confirmed(u, h.prev, h.floor, r)
    && (forall w {:trigger s.workers[w]} | 0 <= w < u.workers :: WorkerOk(u, s, w))
  }

  ghost predicate WorkerOk(u: Setup, s: Pool, w: nat)
    requires ValidSetup(u) && Shaped(u, s) && w < u.workers
  {
    var r, h := s.coordinator.round, s.history;
    && Obeys(u, r, h, s.lps, s.workers[w], s.commands[w], s.replies[w], w, OrderOf(s.coordinator, w))
    && MailIsDue(u, r, h, s.workers, s.inboxes[w], w)
    && (ModeOf(s.workers[w], r) == Ahead ==> forall v | v in h.merged[w] :: v < u.workers && HasSent(s.workers[v], r, w))
  }
}
