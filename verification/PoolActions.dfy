/** Every action of the pool keeps its invariant, so no run ever meets a message it does not expect. */
module PoolActions {
  import opened Events
  import opened Executor
  import opened PoolState
  import opened PoolInvariant
  import opened PoolLemmas
  import opened PoolFrames
  import opened PoolSteps
  import opened PoolMerges

  lemma GetWorker(u: Setup, s: Pool, w: nat)
    requires ValidSetup(u) && Shaped(u, s) && Steady(u, s) && w < u.workers
    ensures WorkerOk(u, s, w)
  {
    var it := s.workers[w];
  }

  /** Worker `w` waits before and after, in the same round, with the same batches merged and in its queues. */
  ghost predicate Quiet(u: Setup, s: Pool, s': Pool, w: nat)
    requires Shaped(u, s) && w < u.workers
  {
    && Shaped(u, s') && s'.status.Running? && s'.coordinator == s.coordinator && s'.history == s.history && s'.lps == s.lps
    && (forall v | 0 <= v < u.workers && v != w ::
          && s'.workers[v] == s.workers[v] && s'.commands[v] == s.commands[v] && s'.replies[v] == s.replies[v]
          && s'.inboxes[v] == s.inboxes[v])
    && s'.workers[w].round == s.workers[w].round
    && ModeOf(s.workers[w], s.coordinator.round) == ModeOf(s'.workers[w], s.coordinator.round)
    && !s.workers[w].stage.Sending? && !s'.workers[w].stage.Sending?
    && multiset(s'.workers[w].pending) + multiset(s'.inboxes[w]) == multiset(s.workers[w].pending) + multiset(s.inboxes[w])
  }

  lemma QuietActs(u: Setup, s: Pool, s': Pool, w: nat)
    requires ValidSetup(u) && Shaped(u, s) && w < u.workers && Quiet(u, s, s', w)
    ensures WorkerActed(u, s, s', w)
    ensures forall v | 0 <= v < u.workers ::
              HasSent(s.workers[w], s.coordinator.round, v) == HasSent(s'.workers[w], s.coordinator.round, v)
  {
    forall v | 0 <= v < u.workers && v != w
      ensures OtherKept(u, s, s', v)
    {
    }
  }

  lemma QuietMail(u: Setup, s: Pool, s': Pool, w: nat)
    requires ValidSetup(u) && Shaped(u, s) && w < u.workers && Quiet(u, s, s', w) && WorkerOk(u, s, w)
    ensures MailIsDue(u, s.coordinator.round, s'.history, s'.workers, s'.inboxes[w], w)
    ensures ModeOf(s'.workers[w], s.coordinator.round) == Ahead ==>
              forall v | v in s'.history.merged[w] :: v < u.workers && HasSent(s'.workers[v], s.coordinator.round, w)
  {
    hide OldMail, NewMail, Obeys, HasSent;
    var r := s.coordinator.round;
    QuietActs(u, s, s', w);
    forall v | 0 <= v < u.workers
      ensures HasSent(s.workers[v], r, w) == HasSent(s'.workers[v], r, w)
    {
      assert v == w || s'.workers[v] == s.workers[v];
    }
    OldMailFrame(u, r, s.history, s'.history, s.workers, s'.workers, w);
    NewMailFrame(u, r, s.history, s'.history, s.workers, s'.workers, w);
  }

  lemma QuietKeeps(u: Setup, s: Pool, s': Pool, w: nat)
    requires ValidSetup(u) && Shaped(u, s) && Steady(u, s) && w < u.workers && Quiet(u, s, s', w)
    requires Obeys(u, s.coordinator.round, s.history, s.lps, s'.workers[w], s'.commands[w], s'.replies[w], w,
                   OrderOf(s.coordinator, w))
    ensures Steady(u, s')
  {
    hide Steady, Obeys, MailIsDue, HasSent, WorkerActed, ModeOf;
    GetWorker(u, s, w);
    QuietActs(u, s, s', w);
    QuietMail(u, s, s', w);
    ActedKeeps(u, s, s', w);
  }

  lemma AnnounceKeeps(u: Setup, s: Pool, w: nat)
    requires ValidSetup(u) && Inv(u, s) && Enabled(u, s, Announce(w))
    ensures Inv(u, Act(u, s, Announce(w)))
  {
    hide Holds, Took, Launched, Reports, MailIsDue, Accepted, Steady, Decided, Confirmed, MinTime;
    GetWorker(u, s, w);
    var s' := Act(u, s, Announce(w));
    StartMinimum(u, s, w);
    EmptyWaits(u, s, w);
    QuietKeeps(u, s, s', w);
  }

  lemma EmptyWaits(u: Setup, s: Pool, w: nat)
    requires ValidSetup(u) && Shaped(u, s) && w < u.workers && WorkerOk(u, s, w) && s.workers[w].stage.Starting?
    ensures s.history.merged[w] == {} <= Sources(u, s.history.prev, w) && |s.history.merged[w]| == 0
  {
    hide Holds, Took, Launched, Reports, MailIsDue, Accepted;
  }

  /** A worker announces the least time of what it starts with. */
  lemma StartMinimum(u: Setup, s: Pool, w: nat)
    requires ValidSetup(u) && Shaped(u, s) && Steady(u, s) && w < u.workers && s.workers[w].stage.Starting?
    ensures OwnPending(u.owner, s.lps, w) == HeldAt(u.owner, s.history.prev, w)
  {
    hide Took, Launched, Reports, MailIsDue, Accepted, Decided, Confirmed;
    GetWorker(u, s, w);
    forall i | 0 <= i < |s.lps| && u.owner[i] == w
      ensures s.lps[i] == Merged(s.history.prev, i)
    {
      NothingReceived(u.owner, s.history.prev, i);
      assert s.lps[i] == Filled(u.owner, s.history.prev, {}, i);
      assert Inbox(s.history.prev, i) == {};
    }
  }

  lemma TakeCommandKeeps(u: Setup, s: Pool, w: nat)
    requires ValidSetup(u) && Inv(u, s) && Enabled(u, s, TakeCommand(w))
    ensures Inv(u, DoTakeCommand(u, s, w))
  {
    hide Holds, Took, Launched, Reports, MailIsDue, Accepted, Steady, MinTime, HeldAt, Sources;
    GetWorker(u, s, w);
    FirstExpectsNothing(u, s, w);
    QuietKeeps(u, s, DoTakeCommand(u, s, w), w);
  }

  /** No batch is expected before the first round. */
  lemma FirstExpectsNothing(u: Setup, s: Pool, w: nat)
    requires ValidSetup(u) && Shaped(u, s) && Steady(u, s) && w < u.workers
    ensures s.coordinator.round == 0 ==> s.coordinator.expected[w] == 0
  {
    hide Confirmed, WorkerOk, Horizon, Ended, Frontier, HeldAt;
    assert s.coordinator.round == 0 ==> Sources(u, s.history.prev, w) == {};
  }

  lemma ScanMerges(u: Setup, s: Pool, w: nat)
    requires ValidSetup(u) && Inv(u, s) && Enabled(u, s, Scan(w))
    requires s.workers[w].pending[0].round == s.workers[w].completed.value.round
    ensures Inv(u, DoScan(u, s, w))
  {
    hide Steady, MailIsDue, Mergeable, Obeys, Sources, Sent, MergeInto, Holds, Took, Launched, HasSent;
    GetWorker(u, s, w);
    var worker := s.workers[w];
    var b := worker.pending[0];
    TakeFront(worker.pending);
    WaitingKeepsAside(u, s, w);
    if Mergeable(u.owner, s.lps, w, b.events, worker.completed.value.horizon) {
      MergeKeeps(u, s, s, w, b, worker.(pending := worker.pending[1..], stage := worker.stage.(scan := worker.stage.scan - 1)));
    }
  }

  lemma ScanRequeues(u: Setup, s: Pool, w: nat)
    requires ValidSetup(u) && Inv(u, s) && Enabled(u, s, Scan(w))
    requires s.workers[w].pending[0].round != s.workers[w].completed.value.round
    ensures Inv(u, DoScan(u, s, w))
  {
    hide Steady, MailIsDue, Obeys, Sources, Sent, MergeBatch;
    GetWorker(u, s, w);
    WaitingKeepsAside(u, s, w);
    BatchIsDue(u, s, w, s.workers[w].pending[0]);
    Rotates(s.workers[w].pending);
    RequeueKeeps(u, s, DoScan(u, s, w), w);
  }

  /** What a waiting worker has scanned belongs to its next round. */
  lemma WaitingKeepsAside(u: Setup, s: Pool, w: nat)
    requires ValidSetup(u) && Shaped(u, s) && w < u.workers && WorkerOk(u, s, w) && s.workers[w].stage.Waiting?
    ensures var worker := s.workers[w];
            && worker.stage.scan <= |worker.pending|
            && forall k | worker.stage.scan <= k < |worker.pending| :: worker.pending[k].round == worker.round
  {
    hide Obeys, MailIsDue, Holds, Took, Launched, Sources;
    WaitingIs(u, s, w);
  }

  lemma ScanKeeps(u: Setup, s: Pool, w: nat)
    requires ValidSetup(u) && Inv(u, s) && Enabled(u, s, Scan(w))
    ensures Inv(u, DoScan(u, s, w))
  {
    hide Steady, DoScan;
    if s.workers[w].pending[0].round == s.workers[w].completed.value.round {
      ScanMerges(u, s, w);
    } else {
      ScanRequeues(u, s, w);
    }
  }

  lemma Rotates(pending: seq<Batch>)
    requires pending != []
    ensures multiset(pending[1..] + [pending[0]]) == multiset(pending)
  {
    TakeFront(pending);
  }

  /** Keeping a batch of the next round aside keeps the invariant. */
  lemma RequeueKeeps(u: Setup, s: Pool, s': Pool, w: nat)
    requires ValidSetup(u) && Shaped(u, s) && Shaped(u, s') && Steady(u, s) && w < u.workers && Quiet(u, s, s', w)
    requires s.workers[w].stage.Waiting? && s'.workers[w].stage.Waiting? && s.workers[w].completed.Some?
    requires s'.workers[w] == s.workers[w].(pending := s'.workers[w].pending, stage := s.workers[w].stage.(scan := s'.workers[w].stage.scan))
    requires s'.workers[w].stage.scan <= |s'.workers[w].pending|
    requires forall k | s'.workers[w].stage.scan <= k < |s'.workers[w].pending| ::
               s'.workers[w].pending[k].round == s'.workers[w].round
    requires s'.commands[w] == s.commands[w] && s'.replies[w] == s.replies[w]
    ensures Steady(u, s')
  {
    hide Steady, MailIsDue, Holds, Took, Sources, Launched, Obeys, Quiet, ModeOf;
    GetWorker(u, s, w);
    ObeysSwap(u, s.coordinator.round, s.history, s.history, s.lps, s.lps, s.workers[w], s'.workers[w], s.commands[w],
              s.replies[w], w, OrderOf(s.coordinator, w));
    QuietKeeps(u, s, s', w);
  }

  lemma TakeMerges(u: Setup, s: Pool, w: nat)
    requires ValidSetup(u) && Inv(u, s) && Enabled(u, s, TakeBatch(w))
    requires s.inboxes[w][0].round == s.workers[w].completed.value.round
    ensures Inv(u, DoTakeBatch(u, s, w))
  {
    hide Steady, MailIsDue, Mergeable, Obeys, Sources, Sent, MergeInto, Holds, Took, Launched, HasSent;
    GetWorker(u, s, w);
    var worker := s.workers[w];
    var b := s.inboxes[w][0];
    TakeFront(s.inboxes[w]);
    WaitingKeepsAside(u, s, w);
    if Mergeable(u.owner, s.lps, w, b.events, worker.completed.value.horizon) {
      MergeKeeps(u, s, s.(inboxes := s.inboxes[w := s.inboxes[w][1..]]), w, b, worker);
    }
  }

  lemma TakeRequeues(u: Setup, s: Pool, w: nat)
    requires ValidSetup(u) && Inv(u, s) && Enabled(u, s, TakeBatch(w))
    requires s.inboxes[w][0].round != s.workers[w].completed.value.round
    ensures Inv(u, DoTakeBatch(u, s, w))
  {
    hide Steady, MailIsDue, Obeys, Sources, Sent, MergeBatch;
    GetWorker(u, s, w);
    WaitingKeepsAside(u, s, w);
    BatchIsDue(u, s, w, s.inboxes[w][0]);
    TakeFront(s.inboxes[w]);
    RequeueKeeps(u, s, DoTakeBatch(u, s, w), w);
  }

  lemma TakeBatchKeeps(u: Setup, s: Pool, w: nat)
    requires ValidSetup(u) && Inv(u, s) && Enabled(u, s, TakeBatch(w))
    ensures Inv(u, DoTakeBatch(u, s, w))
  {
    hide Steady, DoTakeBatch;
    if s.inboxes[w][0].round == s.workers[w].completed.value.round {
      TakeMerges(u, s, w);
    } else {
      TakeRequeues(u, s, w);
    }
  }
}
