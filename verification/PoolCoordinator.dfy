/** Every action of the coordinator keeps the invariant of the pool. */
module PoolCoordinator {
  import opened Events
  import opened LogicalProcess
  import opened Rounds
  import opened Executor
  import opened PoolState
  import opened PoolInvariant
  import opened PoolLemmas
  import opened PoolActions

  /** The coordinator moved within a round: queues, processes and history are as before. */
  ghost predicate CoordinatorActed(u: Setup, s: Pool, s': Pool) {
    && Shaped(u, s) && Shaped(u, s') && s'.status.Running?
    && s'.lps == s.lps && s'.workers == s.workers && s'.inboxes == s.inboxes && s'.history == s.history
    && s'.coordinator.round == s.coordinator.round
  }

  /** A worker whose order and channels did not change is as it was. */
  lemma Undisturbed(u: Setup, s: Pool, s': Pool, v: nat)
    requires ValidSetup(u) && CoordinatorActed(u, s, s') && v < u.workers && WorkerOk(u, s, v)
    requires s'.commands[v] == s.commands[v] && s'.replies[v] == s.replies[v]
    requires OrderOf(s'.coordinator, v) == OrderOf(s.coordinator, v)
    ensures WorkerOk(u, s', v)
  {
  }

  /** Only the order of worker `w` and its channels changed. */
  lemma OneDisturbed(u: Setup, s: Pool, s': Pool, w: nat)
    requires ValidSetup(u) && Shaped(u, s) && Steady(u, s) && CoordinatorActed(u, s, s') && w < u.workers
    requires forall v | 0 <= v < u.workers && v != w ::
               && s'.commands[v] == s.commands[v] && s'.replies[v] == s.replies[v]
               && OrderOf(s'.coordinator, v) == OrderOf(s.coordinator, v)
    requires Obeys(u, s.coordinator.round, s.history, s.lps, s.workers[w], s'.commands[w], s'.replies[w], w,
                   OrderOf(s'.coordinator, w))
    requires Decided(u, s.history.prev, s'.coordinator)
    ensures Steady(u, s')
  {
    hide Obeys, MailIsDue, Decided, Confirmed, KnownTargets, OrderOf, ModeOf, HasSent;
    forall v | 0 <= v < u.workers
      ensures WorkerOk(u, s', v)
    {
      GetWorker(u, s, v);
      if v != w {
        Undisturbed(u, s, s', v);
      }
    }
  }

  lemma PrepareKeeps(u: Setup, s: Pool, w: nat)
    requires ValidSetup(u) && Inv(u, s) && Enabled(u, s, Receive(w)) && s.coordinator.duty.Preparing?
    ensures Inv(u, DoReceive(u, s, w))
  {
    hide Steady, MailIsDue, Holds, Took, Launched, Accepted, HeldAt, Reports, MinTime, Sources;
    GetWorker(u, s, w);
    GetDecided(u, s);
    var s' := DoReceive(u, s, w);
    var ready := s.coordinator.duty.ready[w := true];
    forall v | 0 <= v < u.workers
      ensures s'.coordinator.duty.Deciding? ==> s'.coordinator.expected[v] == |Sources(u, s.history.prev, v)|
      ensures v != w ==> OrderOf(s'.coordinator, v) == OrderOf(s.coordinator, v)
    {
      NoSourceAtFirst(u, s, v);
      assert v != w ==> ready[v] == s.coordinator.duty.ready[v];
    }
    OneDisturbed(u, s, s', w);
  }

  lemma GetDecided(u: Setup, s: Pool)
    requires ValidSetup(u) && Shaped(u, s) && Steady(u, s)
    ensures Decided(u, s.history.prev, s.coordinator)
    ensures s.coordinator.round == 0 ==> s.history.prev == Start(u.config)
  {
  }

  lemma NoSourceAtFirst(u: Setup, s: Pool, w: nat)
    requires ValidSetup(u) && Shaped(u, s) && Steady(u, s) && s.coordinator.round == 0
    ensures |Sources(u, s.history.prev, w)| == 0
  {
    GetDecided(u, s);
    hide Steady, Decided;
    assert Sources(u, s.history.prev, w) == {};
  }

  lemma GatherKeeps(u: Setup, s: Pool, w: nat)
    requires ValidSetup(u) && Inv(u, s) && Enabled(u, s, Receive(w)) && s.coordinator.duty.Gathering?
    ensures Inv(u, DoReceive(u, s, w))
  {
    hide Steady, MailIsDue, Holds, Took, Launched, Accepted, HeldAt, Reports, MinTime, Sources, Ended;
    GetWorker(u, s, w);
    GetDecided(u, s);
    var s' := DoReceive(u, s, w);
    var finished := s.coordinator.duty.finished[w := true];
    forall v | 0 <= v < u.workers && v != w
      ensures OrderOf(s'.coordinator, v) == OrderOf(s.coordinator, v)
    {
      assert finished[v] == s.coordinator.duty.finished[v];
    }
    OneDisturbed(u, s, s', w);
  }

  /** A reply that arrives while collecting is the report of a worker that completed the round. */
  lemma ReportArrives(u: Setup, s: Pool, w: nat)
    requires ValidSetup(u) && Shaped(u, s) && Steady(u, s) && w < u.workers
    requires s.coordinator.duty.Collecting? && s.replies[w].Some?
    ensures s.coordinator.duty.reports[w].None? && s.commands[w].None?
    ensures var reply := s.replies[w].value;
            && reply.RoundComplete? && reply.round == s.coordinator.round && |reply.metadata| == u.workers
            && Reports(u, s.history.now, w, reply.metadata, reply.minimum)
            && IsAhead(u, s.coordinator.round, s.history, s.lps, s.workers[w], w, s.coordinator.duty.horizon)
  {
    hide Steady, MailIsDue, Holds, Took, Waits, Launched, Accepted, HeldAt, Reports, MinTime, Sources;
    GetWorker(u, s, w);
  }

  lemma CollectKeeps(u: Setup, s: Pool, w: nat)
    requires ValidSetup(u) && Inv(u, s) && Enabled(u, s, Receive(w)) && s.coordinator.duty.Collecting?
    requires exists v :: 0 <= v < u.workers && v != w && s.coordinator.duty.reports[v].None?
    ensures Inv(u, DoReceive(u, s, w))
  {
    hide Steady, MailIsDue, Holds, Took, Waits, Launched, Accepted, HeldAt, Reports, MinTime, Sources, Ended,
         IsAhead, Horizon, Frontier;
    ReportArrives(u, s, w);
    GetDecided(u, s);
    var s', reply := DoReceive(u, s, w), s.replies[w].value;
    var v :| 0 <= v < u.workers && v != w && s.coordinator.duty.reports[v].None?;
    assert s.coordinator.duty.reports[w := Some(Report(reply.metadata, reply.minimum))][v].None?;
    OneDisturbed(u, s, s', w);
  }

  lemma DecideKeeps(u: Setup, s: Pool)
    requires ValidSetup(u) && Inv(u, s) && Enabled(u, s, Decide)
    ensures Inv(u, DoDecide(u, s))
  {
    hide Steady, MailIsDue, HeldAt, MinTime, Sources, Obeys, Barrier, Horizon, Frontier;
    GetDecided(u, s);
    LeastIsFrontier(u, s.history.prev, s.coordinator.minima);
    var s' := DoDecide(u, s);
    GetWorker(u, s, 0);
    OneDisturbed(u, s, s', 0);
  }

  lemma PublishKeeps(u: Setup, s: Pool)
    requires ValidSetup(u) && Inv(u, s) && Enabled(u, s, Publish)
    ensures Inv(u, DoPublish(u, s))
  {
    hide Steady, MailIsDue, HeldAt, MinTime, Sources, Barrier, Horizon, Frontier, Holds, Took, Waits, Ended;
    GetDecided(u, s);
    var k := s.coordinator.duty.next;
    GetWorker(u, s, k);
    var s' := DoPublish(u, s);
    assert s'.coordinator.duty.Collecting? ==> s'.coordinator.duty.reports[0].None?;
    assert s'.coordinator.duty.Gathering? ==> !s'.coordinator.duty.finished[0];
    OneDisturbed(u, s, s', k);
  }

  /** Every worker has completed the round and its report is at hand. */
  ghost predicate AllDone(u: Setup, s: Pool, horizon: nat, reports: seq<Report>)
    requires ValidSetup(u) && Shaped(u, s)
  {
    && AllReport(u, s.history.now, reports)
    && forall w | 0 <= w < u.workers ::
         && s.commands[w].None?
         && IsAhead(u, s.coordinator.round, s.history, s.lps, s.workers[w], w, horizon)
  }

  /** The drains of all workers together are the executor's drains. */
  lemma AllDrained(u: Setup, s: Pool, horizon: nat)
    requires ValidSetup(u) && Shaped(u, s)
    requires forall w | 0 <= w < u.workers :: Launched(u, s.history, w, horizon)
    requires Confirmed(u, s.history.prev, s.history.floor, s.coordinator.round)
    ensures KnownTargets(s.history.now) && WellKeyed(Barrier(s.history.prev))
    ensures AcceptedByAll(u, s.history.prev, s.history.floor)
    ensures DrainAll(u.m, Barrier(s.history.prev), horizon, u.plan.capacity) == Some(s.history.now)
  {
    hide Accepted, RunRounds, Merged, UniqueKeys;
    var prev, now := s.history.prev, s.history.now;
    forall i | 0 <= i < |now|
      ensures UniqueKeys(Merged(prev, i).pending)
      ensures DrainLp(u.m, i, Merged(prev, i), horizon, u.plan.capacity) == Some(now[i])
      ensures forall e | e in now[i].outbox :: e.target < |now|
    {
      assert Launched(u, s.history, u.owner[i], horizon);
    }
    forall w | 0 <= w < u.workers
      ensures Accepted(u, prev, w, s.history.floor)
    {
      assert Launched(u, s.history, w, horizon);
    }
    assert DrainAll(u.m, Barrier(prev), horizon, u.plan.capacity).value == now;
  }

  /** The barrier accepts exactly when every worker can merge what was sent to it. */
  lemma AllAccepted(u: Setup, ds: Round, horizon: nat)
    requires ValidSetup(u) && |ds| == |u.owner| && KnownTargets(ds)
    ensures AcceptedByAll(u, ds, horizon) <==> Accepts(ds, horizon)
  {
    if AcceptedByAll(u, ds, horizon) {
      AcceptedIsAccepts(u, ds, horizon);
    }
    if Accepts(ds, horizon) {
      forall w | 0 <= w < u.workers
        ensures Accepted(u, ds, w, horizon)
      {
        AcceptsIsAccepted(u, ds, horizon, w);
      }
    }
  }

  lemma AcceptsIsAccepted(u: Setup, ds: Round, horizon: nat, w: nat)
    requires ValidSetup(u) && |ds| == |u.owner| && Accepts(ds, horizon)
    ensures Accepted(u, ds, w, horizon)
  {
    hide Sources, UniqueKeys, Merged;
    forall i | 0 <= i < |ds| && u.owner[i] == w
      ensures UniqueKeys(Filled(u.owner, ds, Sources(u, ds, w), i).pending)
      ensures forall e | e in Received(u.owner, ds, Sources(u, ds, w), i) :: horizon <= e.key.time
    {
      ReceivedFromAll(u, ds, w, i);
    }
  }

  lemma AcceptedIsAccepts(u: Setup, ds: Round, horizon: nat)
    requires ValidSetup(u) && |ds| == |u.owner| && KnownTargets(ds) && AcceptedByAll(u, ds, horizon)
    ensures Accepts(ds, horizon)
  {
    hide Sources, UniqueKeys, Merged;
    forall i | 0 <= i < |ds|
      ensures UniqueKeys(Merged(ds, i).pending)
      ensures forall e | e in Inbox(ds, i) :: horizon <= e.key.time
    {
      assert Accepted(u, ds, u.owner[i], horizon);
      ReceivedFromAll(u, ds, u.owner[i], i);
    }
    forall j, e | 0 <= j < |ds| && e in ds[j].outbox
      ensures horizon <= e.key.time
    {
      assert e in Inbox(ds, e.target);
    }
  }

  /** The round that all workers completed is the next round of the executor. */
  lemma RoundConfirmed(u: Setup, s: Pool, horizon: nat)
    requires ValidSetup(u) && Shaped(u, s) && s.coordinator.round < U64_MAX
    requires forall w | 0 <= w < u.workers :: Launched(u, s.history, w, horizon)
    requires Confirmed(u, s.history.prev, s.history.floor, s.coordinator.round)
    requires !Ended(Barrier(s.history.prev), u.plan.runEnd)
    requires horizon == Horizon(Frontier(Barrier(s.history.prev)).value, u.plan.lookahead, u.plan.runEnd)
    ensures Confirmed(u, s.history.now, horizon, s.coordinator.round + 1)
  {
    hide DrainedBy, Accepts, AcceptedByAll, Horizon, Barrier, Ended, DrainAll, KnownTargets;
    AllDrained(u, s, horizon);
    AllAccepted(u, s.history.now, horizon);
  }

  lemma AheadIsBehindNext(u: Setup, s: Pool, w: nat, horizon: nat, h': History)
    requires ValidSetup(u) && Shaped(u, s) && w < u.workers
    requires IsAhead(u, s.coordinator.round, s.history, s.lps, s.workers[w], w, horizon)
    requires h' == s.history.(prev := s.history.now, floor := horizon)
    ensures IsBehind(u, s.coordinator.round + 1, h', s.lps, s.workers[w], w)
  {
    hide Holds, Took, Launched, Sources;
  }

  /** New mail of the completed round is old mail of the next one. */
  lemma MailAges(u: Setup, s: Pool, w: nat, horizon: nat, h': History)
    requires ValidSetup(u) && Shaped(u, s) && w < u.workers
    requires MailIsDue(u, s.coordinator.round, s.history, s.workers, s.inboxes[w], w)
    requires forall v | 0 <= v < u.workers ::
               s.workers[v].stage.Waiting? && s.workers[v].round == s.coordinator.round + 1
    requires h' == s.history.(prev := s.history.now, floor := horizon)
    ensures MailIsDue(u, s.coordinator.round + 1, h', s.workers, s.inboxes[w], w)
  {
    hide Sent;
    var r := s.coordinator.round;
    assert NewMail(u, r + 1, h', s.workers, w) == {};
    assert OldMail(u, r, s.history, s.workers, w) == {};
    assert OldMail(u, r + 1, h', s.workers, w) == NewMail(u, r, s.history, s.workers, w) by {
      hide ModeOf;
      AllAhead(u, s);
      forall b
        ensures b in OldMail(u, r + 1, h', s.workers, w) <==> b in NewMail(u, r, s.history, s.workers, w)
      {
        AgesEach(u, s, w, h', b);
      }
    }
  }

  lemma AllAhead(u: Setup, s: Pool)
    requires ValidSetup(u) && Shaped(u, s)
    requires forall v | 0 <= v < u.workers ::
               s.workers[v].stage.Waiting? && s.workers[v].round == s.coordinator.round + 1
    ensures forall v | 0 <= v < u.workers ::
              && ModeOf(s.workers[v], s.coordinator.round) == Ahead
              && ModeOf(s.workers[v], s.coordinator.round + 1) == Behind
  {
  }

  lemma AgesEach(u: Setup, s: Pool, w: nat, h': History, b: Batch)
    requires ValidSetup(u) && Shaped(u, s) && w < u.workers
    requires h'.prev == s.history.now && h'.merged == s.history.merged
    requires forall v | 0 <= v < u.workers ::
              && ModeOf(s.workers[v], s.coordinator.round) == Ahead
              && ModeOf(s.workers[v], s.coordinator.round + 1) == Behind
    ensures b in OldMail(u, s.coordinator.round + 1, h', s.workers, w) <==>
            b in NewMail(u, s.coordinator.round, s.history, s.workers, w)
  {
    hide Sent, ModeOf;
  }

  lemma FoldKeeps(u: Setup, s: Pool, horizon: nat, reports: seq<Report>)
    requires ValidSetup(u) && Shaped(u, s) && s.status.Running? && s.coordinator.round < U64_MAX
    requires AllDone(u, s, horizon, reports)
    requires forall w | 0 <= w < u.workers ::
               s.replies[w].None? && MailIsDue(u, s.coordinator.round, s.history, s.workers, s.inboxes[w], w)
    requires Confirmed(u, s.history.prev, s.history.floor, s.coordinator.round)
    requires !Ended(Barrier(s.history.prev), u.plan.runEnd)
    requires horizon == Horizon(Frontier(Barrier(s.history.prev)).value, u.plan.lookahead, u.plan.runEnd)
    ensures FoldRound(u, s, horizon, reports).status.Running?
    ensures Shaped(u, FoldRound(u, s, horizon, reports)) && Steady(u, FoldRound(u, s, horizon, reports))
  {
    hide Reports, IsAhead, Confirmed, Holds, Took, Sources, Launched, MailIsDue, Horizon, Ended, Barrier, KnownTargets,
         FoldedMinimum, FoldedCount, HeldAt;
    var s' := FoldRound(u, s, horizon, reports);
    forall w | 0 <= w < u.workers
      ensures Launched(u, s.history, w, horizon)
      ensures s.workers[w].stage.Waiting? && s.workers[w].round == s.coordinator.round + 1 && s.workers[w].stage.held.None?
    {
      AheadFacts(u, s, w, horizon);
    }
    AllDrained(u, s, horizon);
    RoundConfirmed(u, s, horizon);
    forall w | 0 <= w < u.workers
      ensures WorkerOk(u, s', w)
    {
      AheadIsBehindNext(u, s, w, horizon, s'.history);
      MailAges(u, s, w, horizon, s'.history);
    }
    forall w | 0 <= w < u.workers
      ensures s'.coordinator.expected[w] == |Sources(u, s'.history.prev, w)|
      ensures s'.coordinator.minima[w] == MinTime(HeldAt(u.owner, s'.history.prev, w))
    {
      FoldedMinimumIsTrue(u, s.history.now, reports, w);
      FoldedCountIsTrue(u, s.history.now, reports, w);
    }
  }

  lemma AheadFacts(u: Setup, s: Pool, w: nat, horizon: nat)
    requires ValidSetup(u) && Shaped(u, s) && w < u.workers
    requires IsAhead(u, s.coordinator.round, s.history, s.lps, s.workers[w], w, horizon)
    ensures Launched(u, s.history, w, horizon)
    ensures s.workers[w].stage.Waiting? && s.workers[w].round == s.coordinator.round + 1 && s.workers[w].stage.held.None?
  {
    hide Launched, Holds, Took, Sources;
  }

  /** A worker whose report was collected. */
  lemma Collected(u: Setup, s: Pool, v: nat)
    requires ValidSetup(u) && Shaped(u, s) && Steady(u, s) && v < u.workers
    requires s.coordinator.duty.Collecting? && s.coordinator.duty.reports[v].Some?
    ensures s.commands[v].None? && s.replies[v].None?
    ensures var report := s.coordinator.duty.reports[v].value;
            && |report.metadata| == u.workers && Reports(u, s.history.now, v, report.metadata, report.minimum)
            && IsAhead(u, s.coordinator.round, s.history, s.lps, s.workers[v], v, s.coordinator.duty.horizon)
  {
    hide Steady, MailIsDue, Holds, Took, Waits, Launched, Accepted, HeldAt, Reports, MinTime, Sources;
    GetWorker(u, s, v);
  }

  lemma LastReportKeeps(u: Setup, s: Pool, w: nat)
    requires ValidSetup(u) && Inv(u, s) && Enabled(u, s, Receive(w)) && s.coordinator.duty.Collecting?
    requires forall v | 0 <= v < u.workers && v != w :: s.coordinator.duty.reports[v].Some?
    ensures Inv(u, DoReceive(u, s, w))
  {
    hide Steady, MailIsDue, Reports, Sources, Ended, Published, IsAhead, Horizon, Frontier, Confirmed, FoldRound, Barrier, Obeys;
    ReportArrives(u, s, w);
    GetDecided(u, s);
    GetConfirmed(u, s);
    var reply := s.replies[w].value;
    var taken := s.(replies := s.replies[w := None]);
    var all := s.coordinator.duty.reports[w := Some(Report(reply.metadata, reply.minimum))];
    var reports := seq(|all|, v requires 0 <= v < |all| => all[v].value);
    forall v | 0 <= v < u.workers
      ensures taken.replies[v].None? && taken.commands[v].None?
      ensures MailIsDue(u, s.coordinator.round, s.history, s.workers, s.inboxes[v], v)
      ensures IsAhead(u, s.coordinator.round, s.history, s.lps, s.workers[v], v, s.coordinator.duty.horizon)
      ensures |reports[v].metadata| == u.workers && Reports(u, s.history.now, v, reports[v].metadata, reports[v].minimum)
    {
      GetWorker(u, s, v);
      if v != w {
        Collected(u, s, v);
      }
    }
    FoldLast(u, s, taken, w, reports);
  }

  lemma GetConfirmed(u: Setup, s: Pool)
    requires ValidSetup(u) && Shaped(u, s) && Steady(u, s)
    ensures Confirmed(u, s.history.prev, s.history.floor, s.coordinator.round) && s.coordinator.round <= U64_MAX
  {
  }

  lemma FoldLast(u: Setup, s: Pool, taken: Pool, w: nat, reports: seq<Report>)
    requires ValidSetup(u) && Shaped(u, s) && s.status.Running? && s.coordinator.duty.Collecting? && w < u.workers
    requires taken == s.(replies := s.replies[w := None])
    requires AllDone(u, taken, s.coordinator.duty.horizon, reports)
    requires forall v | 0 <= v < u.workers ::
               taken.replies[v].None? && MailIsDue(u, s.coordinator.round, s.history, s.workers, s.inboxes[v], v)
    requires Confirmed(u, s.history.prev, s.history.floor, s.coordinator.round) && s.coordinator.round <= U64_MAX
    requires Decided(u, s.history.prev, s.coordinator)
    ensures Inv(u, FoldRound(u, taken, s.coordinator.duty.horizon, reports))
  {
    hide Steady, MailIsDue, Reports, Sources, Ended, Published, IsAhead, Horizon, Frontier, Confirmed, Barrier, FoldedMinimum, FoldedCount;
    if s.coordinator.round < U64_MAX {
      FoldKeeps(u, taken, s.coordinator.duty.horizon, reports);
    }
  }

  lemma ReceiveKeeps(u: Setup, s: Pool, w: nat)
    requires ValidSetup(u) && Inv(u, s) && Enabled(u, s, Receive(w))
    ensures Inv(u, DoReceive(u, s, w))
  {
    hide Steady, DoReceive;
    match s.coordinator.duty
    case Preparing(_) => PrepareKeeps(u, s, w);
    case Gathering(_) => GatherKeeps(u, s, w);
    case Collecting(_, reports) =>
      if exists v :: 0 <= v < u.workers && v != w && reports[v].None? {
        CollectKeeps(u, s, w);
      } else {
        LastReportKeeps(u, s, w);
      }
  }
}
