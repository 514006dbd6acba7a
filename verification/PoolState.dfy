/** The static worker pool as a state machine: every interleaving of its threads and channels.

A worker owns its processes for the whole run. It sends remote events straight to the inboxes of
their owners, in batches tagged with its round, and reports only minima and batch counts. The
coordinator publishes the next horizon together with the number of batches that seals each inbox.

Each action is one indivisible step of one thread. A step that finds a message it does not expect
ends in `Mismatch`; one that meets an error of the simulation ends in `Aborted`. No guard and no
result reads the history, which records what the proofs speak about. */
module PoolState {
  import opened Events
  import opened LogicalProcess
  import opened Rounds
  import opened Executor

  datatype Setup = Setup(m: Model, plan: Plan, workers: nat, owner: seq<nat>, config: seq<Lp>)

  ghost predicate ValidSetup(u: Setup) {
    && u.workers > 0 && |u.owner| == |u.config|
    && (forall i | 0 <= i < |u.owner| :: u.owner[i] < u.workers)
    && WellKeyed(u.config)
  }

  /** What one worker sends to one owner in one round. The source is history. */
  datatype Batch = Batch(round: nat, source: nat, events: set<Event>)

  datatype Metadata = Metadata(batches: nat, minimum: Option<U64>)

  datatype Command = RunRound(horizon: nat, expected: nat) | Finish(expected: nat)

  datatype Reply =
    | Ready(minimum: Option<U64>)
    | RoundComplete(round: nat, metadata: seq<Metadata>, minimum: Option<U64>)
    | Finished

  datatype Completed = Completed(round: nat, horizon: nat)

  /** Where a worker is in its loop. While waiting it first scans the batches that came early. */
  datatype Stage =
    | Starting
    | Waiting(scan: nat, held: Option<Command>, merged: nat)
    | Sending(horizon: nat, remote: seq<set<Event>>, metadata: seq<Metadata>, minimum: Option<U64>)
    | Gone

  datatype Worker = Worker(round: nat, completed: Option<Completed>, pending: seq<Batch>, stage: Stage)

  datatype Report = Report(metadata: seq<Metadata>, minimum: Option<U64>)

  datatype Duty =
    | Preparing(ready: seq<bool>)
    | Deciding
    | Publishing(horizon: nat, next: nat)
    | Collecting(horizon: nat, reports: seq<Option<Report>>)
    | Closing(next: nat)
    | Gathering(finished: seq<bool>)
    | Over

  datatype Coordinator = Coordinator(round: nat, minima: seq<Option<U64>>, expected: seq<nat>, duty: Duty)

  datatype Status = Running | Aborted | Mismatch

  /** What the last completed round left and sent, its horizon, what the round under way left and
      sent so far, and whose batches each worker has merged since its last drain. */
  datatype History = History(prev: Round, floor: nat, now: Round, merged: seq<set<nat>>)

  datatype Pool = Pool(
    lps: seq<Lp>, workers: seq<Worker>, commands: seq<Option<Command>>, inboxes: seq<seq<Batch>>,
    replies: seq<Option<Reply>>, coordinator: Coordinator, status: Status, history: History)

  /** The sizes that never change. */
  ghost predicate Shaped(u: Setup, s: Pool) {
    && |s.lps| == |u.owner| == |s.history.prev| == |s.history.now|
    && |s.workers| == |s.commands| == |s.inboxes| == |s.replies| == |s.history.merged| == u.workers
    && |s.coordinator.minima| == |s.coordinator.expected| == u.workers
    && (s.coordinator.duty.Preparing? ==> |s.coordinator.duty.ready| == u.workers)
    && (s.coordinator.duty.Publishing? ==> s.coordinator.duty.next < u.workers)
    && (s.coordinator.duty.Collecting? ==> |s.coordinator.duty.reports| == u.workers)
    && (s.coordinator.duty.Closing? ==> s.coordinator.duty.next < u.workers)
    && (s.coordinator.duty.Gathering? ==> |s.coordinator.duty.finished| == u.workers)
  }

  ghost function Initial(u: Setup): Pool {
    Pool(
      u.config,
      seq(u.workers, _ => Worker(0, None, [], Starting)),
      seq(u.workers, _ => None),
      seq(u.workers, _ => []),
      seq(u.workers, _ => None),
      Coordinator(0, seq(u.workers, _ => None), seq(u.workers, _ => 0), Preparing(seq(u.workers, _ => false))),
      Running,
      History(Start(u.config), 0, Start(u.config), seq(u.workers, _ => {})))
  }

  /** What the processes of one worker hold. */
  ghost function OwnPending(owner: seq<nat>, lps: seq<Lp>, w: nat): set<Event>
    requires |lps| == |owner|
  {
    set i, e | 0 <= i < |lps| && owner[i] == w && e in lps[i].pending :: e
  }

  /** The events of a batch for one process. */
  ghost function To(events: set<Event>, i: nat): set<Event> {
    set e | e in events && e.target == i
  }

  /** A merge needs known targets of this worker, times at or above the floor and fresh keys. */
  ghost predicate Mergeable(owner: seq<nat>, lps: seq<Lp>, w: nat, events: set<Event>, floor: nat)
    requires |lps| == |owner|
  {
    && (forall e | e in events :: e.target < |owner| && owner[e.target] == w && floor <= e.key.time)
    && (forall i | 0 <= i < |lps| && owner[i] == w ::
          UniqueKeys(lps[i].pending + To(events, i)) && lps[i].pending !! To(events, i))
  }

  ghost function MergeInto(lps: seq<Lp>, events: set<Event>): (r: seq<Lp>)
    ensures |r| == |lps|
  {
    seq(|lps|, i requires 0 <= i < |lps| => Lp(lps[i].state, lps[i].pending + To(events, i)))
  }

  /** Every drain of the worker succeeds and every remote event has a known target. */
  ghost predicate Drainable(u: Setup, lps: seq<Lp>, w: nat, horizon: nat)
    requires |lps| == |u.owner| <= TIME_AFTER_U64_MAX
  {
    forall i | 0 <= i < |lps| && u.owner[i] == w ::
      && UniqueKeys(lps[i].pending)
      && DrainLp(u.m, i, lps[i], horizon, u.plan.capacity).Some?
      && forall e | e in DrainLp(u.m, i, lps[i], horizon, u.plan.capacity).value.outbox :: e.target < |lps|
  }

  /** The drains of one worker put in place of what was recorded for it before. */
  ghost function DrainOwn(u: Setup, lps: seq<Lp>, w: nat, horizon: nat, record: Round): (r: Round)
    requires |lps| == |u.owner| == |record| <= TIME_AFTER_U64_MAX && Drainable(u, lps, w, horizon)
    ensures |r| == |lps|
  {
    seq(|lps|, i requires 0 <= i < |lps| =>
      if u.owner[i] == w then DrainLp(u.m, i, lps[i], horizon, u.plan.capacity).value else record[i])
  }

  /** What the processes of worker `v` sent to those of worker `w`. */
  ghost function Sent(owner: seq<nat>, ds: Round, v: nat, w: nat): set<Event>
    requires |ds| == |owner|
  {
    set j, e | 0 <= j < |ds| && owner[j] == v && e in ds[j].outbox && e.target < |owner| && owner[e.target] == w :: e
  }

  /** The states of one worker after its drains, the others as they were. */
  ghost function Settled(owner: seq<nat>, lps: seq<Lp>, ds: Round, w: nat): (r: seq<Lp>)
    requires |lps| == |owner| == |ds|
    ensures |r| == |lps|
  {
    seq(|lps|, i requires 0 <= i < |lps| => if owner[i] == w then ds[i].lp else lps[i])
  }

  ghost function MetadataOf(events: set<Event>): Metadata {
    Metadata(if events == {} then 0 else 1, MinTime(events))
  }

  function Lesser(a: Option<U64>, b: Option<U64>): Option<U64> {
    if a.None? then b else if b.None? then a else if b.value < a.value then b else a
  }

  /** The least of the reported minima. */
  function LeastOf(minima: seq<Option<U64>>): Option<U64> {
    if minima == [] then None else Lesser(LeastOf(minima[..|minima| - 1]), minima[|minima| - 1])
  }

  function Total(counts: seq<nat>): nat {
    if counts == [] then 0 else Total(counts[..|counts| - 1]) + counts[|counts| - 1]
  }

  /** What the reports say of one owner: its own minimum or that of a batch sent to it. */
  ghost function FoldedMinimum(reports: seq<Report>, o: nat): Option<U64>
    requires o < |reports| && forall v | 0 <= v < |reports| :: o < |reports[v].metadata|
  {
    Lesser(reports[o].minimum,
           LeastOf(seq(|reports|, v requires 0 <= v < |reports| => reports[v].metadata[o].minimum)))
  }

  ghost function FoldedCount(reports: seq<Report>, o: nat): nat
    requires forall v | 0 <= v < |reports| :: o < |reports[v].metadata|
  {
    Total(seq(|reports|, v requires 0 <= v < |reports| => reports[v].metadata[o].batches))
  }

  datatype Action =
    | Announce(w: nat)
    | TakeCommand(w: nat)
    | Scan(w: nat)
    | TakeBatch(w: nat)
    | Seal(w: nat)
    | Send(w: nat)
    | Complete(w: nat)
    | Receive(w: nat)
    | Decide
    | Publish

  ghost predicate Enabled(u: Setup, s: Pool, a: Action)
    requires ValidSetup(u) && Shaped(u, s)
  {
    && s.status.Running?
    && match a
       case Announce(w) => w < u.workers && s.workers[w].stage.Starting?
       case TakeCommand(w) =>
         && w < u.workers && s.workers[w].stage.Waiting? && s.workers[w].stage.scan == 0 && s.commands[w].Some?
         && (s.workers[w].completed.None? ==> s.workers[w].stage.held.None?)
       case Scan(w) =>
         && w < u.workers && s.workers[w].stage.Waiting? && 0 < s.workers[w].stage.scan <= |s.workers[w].pending|
         && s.workers[w].completed.Some?
       case TakeBatch(w) =>
         && w < u.workers && s.workers[w].stage.Waiting? && s.workers[w].stage.scan == 0
         && s.workers[w].completed.Some? && s.inboxes[w] != []
       case Seal(w) =>
         && w < u.workers && s.workers[w].stage.Waiting? && s.workers[w].stage.scan == 0
         && s.workers[w].stage.held.Some? && s.workers[w].stage.held.value.expected <= s.workers[w].stage.merged
       case Send(w) =>
         && w < u.workers && s.workers[w].stage.Sending? && |s.workers[w].stage.remote| == u.workers
         && |s.workers[w].stage.metadata| < u.workers
       case Complete(w) =>
         w < u.workers && s.workers[w].stage.Sending? && |s.workers[w].stage.metadata| == u.workers
       case Receive(w) =>
         && w < u.workers && s.replies[w].Some?
         && (s.coordinator.duty.Preparing? || s.coordinator.duty.Collecting? || s.coordinator.duty.Gathering?)
       case Decide => s.coordinator.duty.Deciding?
       case Publish =>
         && (s.coordinator.duty.Publishing? || s.coordinator.duty.Closing?)
         && s.commands[s.coordinator.duty.next].None?
  }

  ghost function SetWorker(s: Pool, w: nat, worker: Worker): Pool
    requires w < |s.workers|
  {
    s.(workers := s.workers[w := worker])
  }

  /** Puts a reply in the worker's slot. A second one before the first is read would be a fault. */
  ghost function Answer(s: Pool, w: nat, reply: Reply): Pool
    requires w < |s.replies|
  {
    if s.replies[w].Some? then s.(status := Mismatch) else s.(replies := s.replies[w := Some(reply)])
  }

  /** Merges one batch that already left its queue. */
  ghost function MergeBatch(u: Setup, s: Pool, w: nat, batch: Batch, worker: Worker): Pool
    requires Shaped(u, s) && w < u.workers && worker.stage.Waiting? && worker.completed.Some?
  {
    if !Mergeable(u.owner, s.lps, w, batch.events, worker.completed.value.horizon) then s.(status := Aborted)
    else
      SetWorker(s, w, worker.(stage := worker.stage.(merged := worker.stage.merged + 1)))
        .(lps := MergeInto(s.lps, batch.events),
          history := s.history.(merged := s.history.merged[w := s.history.merged[w] + {batch.source}]))
  }

  ghost function DoTakeCommand(u: Setup, s: Pool, w: nat): Pool
    requires ValidSetup(u) && Shaped(u, s) && Enabled(u, s, TakeCommand(w))
  {
    var worker, command := s.workers[w], s.commands[w].value;
    if worker.stage.held.Some? || (worker.completed.None? && command.expected != 0) then s.(status := Mismatch)
    else
      SetWorker(s, w, worker.(stage := worker.stage.(held := Some(command)))).(commands := s.commands[w := None])
  }

  ghost function DoScan(u: Setup, s: Pool, w: nat): Pool
    requires ValidSetup(u) && Shaped(u, s) && Enabled(u, s, Scan(w))
  {
    var worker := s.workers[w];
    var batch, rest := worker.pending[0], worker.pending[1..];
    var scanned := worker.stage.(scan := worker.stage.scan - 1);
    if batch.round == worker.completed.value.round then
      MergeBatch(u, s, w, batch, worker.(pending := rest, stage := scanned))
    else SetWorker(s, w, worker.(pending := rest + [batch], stage := scanned))
  }

  ghost function DoTakeBatch(u: Setup, s: Pool, w: nat): Pool
    requires ValidSetup(u) && Shaped(u, s) && Enabled(u, s, TakeBatch(w))
  {
    var worker, batch := s.workers[w], s.inboxes[w][0];
    var taken := s.(inboxes := s.inboxes[w := s.inboxes[w][1..]]);
    if batch.round == worker.completed.value.round then MergeBatch(u, taken, w, batch, worker)
    else if batch.round == worker.completed.value.round + 1 then
      SetWorker(taken, w, worker.(pending := worker.pending + [batch]))
    else s.(status := Mismatch)
  }

  ghost function DoSeal(u: Setup, s: Pool, w: nat): Pool
    requires ValidSetup(u) && Shaped(u, s) && Enabled(u, s, Seal(w))
  {
    var worker, command := s.workers[w], s.workers[w].stage.held.value;
    if worker.stage.merged > command.expected then s.(status := Mismatch)
    else
      match command
      case Finish(_) => Answer(SetWorker(s, w, worker.(stage := Gone)), w, Finished)
      case RunRound(horizon, _) =>
        if !Drainable(u, s.lps, w, horizon) then s.(status := Aborted)
        else
          var now := DrainOwn(u, s.lps, w, horizon, s.history.now);
          var lps := Settled(u.owner, s.lps, now, w);
          var remote := seq(u.workers, o requires 0 <= o < u.workers => Sent(u.owner, now, w, o));
          SetWorker(s, w, worker.(stage := Sending(horizon, remote, [], MinTime(OwnPending(u.owner, lps, w)))))
            .(lps := lps, history := s.history.(now := now, merged := s.history.merged[w := {}]))
  }

  ghost function DoSend(u: Setup, s: Pool, w: nat): Pool
    requires ValidSetup(u) && Shaped(u, s) && Enabled(u, s, Send(w))
  {
    var worker := s.workers[w];
    var o := |worker.stage.metadata|;
    var events := worker.stage.remote[o];
    var sent := SetWorker(s, w, worker.(stage := worker.stage.(metadata := worker.stage.metadata + [MetadataOf(events)])));
    if events == {} then sent
    else sent.(inboxes := s.inboxes[o := s.inboxes[o] + [Batch(worker.round, w, events)]])
  }

  ghost function DoComplete(u: Setup, s: Pool, w: nat): Pool
    requires ValidSetup(u) && Shaped(u, s) && Enabled(u, s, Complete(w))
  {
    var worker := s.workers[w];
    if worker.round == U64_MAX then s.(status := Aborted)
    else
      var next := Worker(worker.round + 1, Some(Completed(worker.round, worker.stage.horizon)), worker.pending,
                         Waiting(|worker.pending|, None, 0));
      Answer(SetWorker(s, w, next), w, RoundComplete(worker.round, worker.stage.metadata, worker.stage.minimum))
  }

  /** All reports are in: adds up the batch counts and takes the minima. */
  ghost function FoldRound(u: Setup, s: Pool, horizon: nat, reports: seq<Report>): Pool
    requires Shaped(u, s) && |reports| == u.workers
  {
    if exists v | 0 <= v < |reports| :: |reports[v].metadata| != u.workers then s.(status := Mismatch)
    else if s.coordinator.round == U64_MAX then s.(status := Aborted)
    else
      s.(coordinator := Coordinator(
           s.coordinator.round + 1,
           seq(u.workers, o requires 0 <= o < u.workers => FoldedMinimum(reports, o)),
           seq(u.workers, o requires 0 <= o < u.workers => FoldedCount(reports, o)),
           Deciding),
         history := s.history.(prev := s.history.now, floor := horizon))
  }

  ghost function DoReceive(u: Setup, s: Pool, w: nat): Pool
    requires ValidSetup(u) && Shaped(u, s) && Enabled(u, s, Receive(w))
  {
    var reply, c := s.replies[w].value, s.coordinator;
    var taken := s.(replies := s.replies[w := None]);
    match c.duty
    case Preparing(ready) =>
      if !reply.Ready? || ready[w] then s.(status := Mismatch)
      else
        var ready' := ready[w := true];
        var duty := if forall v | 0 <= v < |ready'| :: ready'[v] then Deciding else Preparing(ready');
        taken.(coordinator := c.(minima := c.minima[w := reply.minimum], duty := duty))
    case Collecting(horizon, reports) =>
      if !reply.RoundComplete? || reply.round != c.round || reports[w].Some? then s.(status := Mismatch)
      else
        var reports' := reports[w := Some(Report(reply.metadata, reply.minimum))];
        if forall v | 0 <= v < |reports'| :: reports'[v].Some? then
          FoldRound(u, taken, horizon, seq(|reports'|, v requires 0 <= v < |reports'| => reports'[v].value))
        else taken.(coordinator := c.(duty := Collecting(horizon, reports')))
    case Gathering(finished) =>
      if !reply.Finished? || finished[w] then s.(status := Mismatch)
      else
        var finished' := finished[w := true];
        taken.(coordinator := c.(duty :=
          if forall v | 0 <= v < |finished'| :: finished'[v] then Over else Gathering(finished')))
  }

  ghost function DoDecide(u: Setup, s: Pool): Pool
    requires ValidSetup(u) && Shaped(u, s) && Enabled(u, s, Decide)
  {
    var frontier := LeastOf(s.coordinator.minima);
    s.(coordinator := s.coordinator.(duty :=
      if frontier.None? || frontier.value >= u.plan.runEnd then Closing(0)
      else Publishing(Horizon(frontier.value, u.plan.lookahead, u.plan.runEnd), 0)))
  }

  ghost function DoPublish(u: Setup, s: Pool): Pool
    requires ValidSetup(u) && Shaped(u, s) && Enabled(u, s, Publish)
  {
    var c := s.coordinator;
    var k := c.duty.next;
    var command := if c.duty.Publishing? then RunRound(c.duty.horizon, c.expected[k]) else Finish(c.expected[k]);
    var duty :=
      if k + 1 < u.workers then c.duty.(next := k + 1)
      else if c.duty.Publishing? then Collecting(c.duty.horizon, seq(u.workers, _ => None))
      else Gathering(seq(u.workers, _ => false));
    s.(commands := s.commands[k := Some(command)], coordinator := c.(duty := duty))
  }

  ghost function Act(u: Setup, s: Pool, a: Action): Pool
    requires ValidSetup(u) && Shaped(u, s) && Enabled(u, s, a)
  {
    match a
    case Announce(w) =>
      Answer(SetWorker(s, w, s.workers[w].(stage := Waiting(0, None, 0))), w, Ready(MinTime(OwnPending(u.owner, s.lps, w))))
    case TakeCommand(w) => DoTakeCommand(u, s, w)
    case Scan(w) => DoScan(u, s, w)
    case TakeBatch(w) => DoTakeBatch(u, s, w)
    case Seal(w) => DoSeal(u, s, w)
    case Send(w) => DoSend(u, s, w)
    case Complete(w) => DoComplete(u, s, w)
    case Receive(w) => DoReceive(u, s, w)
    case Decide => DoDecide(u, s)
    case Publish => DoPublish(u, s)
  }
}
