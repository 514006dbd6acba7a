/** What holds in every run of the worker pool, whatever the interleaving. */
module PoolRuns {
  import opened Events
  import opened LogicalProcess
  import opened Rounds
  import opened Executor
  import opened PoolState
  import opened PoolInvariant
  import opened PoolLemmas
  import opened PoolMerges
  import opened PoolActions
  import opened PoolDrains
  import opened PoolCoordinator

  /** The state after a sequence of actions, if each of them was possible. */
  ghost function Run(u: Setup, actions: seq<Action>): Option<Pool>
    requires ValidSetup(u)
  {
    if actions == [] then Some(Initial(u))
    else
      var a := actions[|actions| - 1];
      match Run(u, actions[..|actions| - 1])
      case None => None
      case Some(s) => if Shaped(u, s) && Enabled(u, s, a) then Some(Act(u, s, a)) else None
  }

  lemma NothingAtStart(u: Setup, i: nat)
    requires ValidSetup(u) && i < |u.config|
    ensures Received(u.owner, Start(u.config), {}, i) == {} && Inbox(Start(u.config), i) == {}
    ensures Filled(u.owner, Start(u.config), {}, i) == Merged(Start(u.config), i) == u.config[i]
  {
    assert u.config[i].pending + {} == u.config[i].pending;
  }

  lemma InitialWorker(u: Setup, w: nat)
    requires ValidSetup(u) && w < u.workers
    ensures Shaped(u, Initial(u)) && WorkerOk(u, Initial(u), w)
  {
    hide Merged;
    var s := Initial(u);
    forall i | 0 <= i < |u.config|
      ensures Received(u.owner, Start(u.config), {}, i) == {}
      ensures Filled(u.owner, Start(u.config), {}, i) == u.config[i]
    {
      NothingAtStart(u, i);
    }
    assert NewMail(u, 0, s.history, s.workers, w) == {};
  }

  lemma StartIsAccepted(u: Setup, w: nat)
    requires ValidSetup(u) && w < u.workers
    ensures Accepted(u, Start(u.config), w, 0)
  {
    hide Merged;
    assert Sources(u, Start(u.config), w) == {};
    forall i | 0 <= i < |u.config|
      ensures Filled(u.owner, Start(u.config), {}, i) == u.config[i]
    {
      NothingAtStart(u, i);
    }
  }

  /** At the start every worker holds its own processes and no message is under way. */
  lemma InitialInv(u: Setup)
    requires ValidSetup(u)
    ensures Inv(u, Initial(u))
  {
    hide UniqueKeys, RunRounds, WorkerOk, Accepted, Merged;
    var s := Initial(u);
    forall w | 0 <= w < u.workers
      ensures WorkerOk(u, s, w) && Accepted(u, s.history.prev, w, s.history.floor)
    {
      InitialWorker(u, w);
      StartIsAccepted(u, w);
    }
    forall i | 0 <= i < |u.config|
      ensures Merged(Start(u.config), i) == u.config[i]
    {
      NothingAtStart(u, i);
    }
    assert Barrier(Start(u.config)) == u.config;
    assert !s.coordinator.duty.ready[0];
  }

  lemma ActKeeps(u: Setup, s: Pool, a: Action)
    requires ValidSetup(u) && Inv(u, s) && Enabled(u, s, a)
    ensures Inv(u, Act(u, s, a))
  {
    hide Steady, Enabled, DoTakeCommand, DoScan, DoTakeBatch, DoSeal, DoSend, DoComplete, DoReceive, DoDecide, DoPublish;
    match a
    case Announce(w) => AnnounceKeeps(u, s, w);
    case TakeCommand(w) => TakeCommandKeeps(u, s, w);
    case Scan(w) => ScanKeeps(u, s, w);
    case TakeBatch(w) => TakeBatchKeeps(u, s, w);
    case Seal(w) => SealKeeps(u, s, w);
    case Send(w) => SendKeeps(u, s, w);
    case Complete(w) => CompleteKeeps(u, s, w);
    case Receive(w) => ReceiveKeeps(u, s, w);
    case Decide => DecideKeeps(u, s);
    case Publish => PublishKeeps(u, s);
  }

  /** No run reaches a mismatch: no batch of a wrong round, no second command, no surplus batch, no
      unexpected or repeated reply. */
  lemma {:induction false} RunsKeepInvariant(u: Setup, actions: seq<Action>)
    requires ValidSetup(u) && Run(u, actions).Some?
    ensures Inv(u, Run(u, actions).value) && !Run(u, actions).value.status.Mismatch?
  {
    hide Steady, Act, Initial, Enabled;
    if actions == [] {
      InitialInv(u);
    } else {
      RunsKeepInvariant(u, actions[..|actions| - 1]);
      ActKeeps(u, Run(u, actions[..|actions| - 1]).value, actions[|actions| - 1]);
    }
  }

  /** Every batch a waiting worker reads belongs to its completed round or to the next one. */
  lemma BatchesAreExpected(u: Setup, actions: seq<Action>, w: nat, b: Batch)
    requires ValidSetup(u) && Run(u, actions).Some? && w < u.workers
    requires var s := Run(u, actions).value;
             && s.status.Running? && Shaped(u, s) && s.workers[w].stage.Waiting? && s.workers[w].completed.Some?
             && (b in s.workers[w].pending || b in s.inboxes[w])
    ensures var completed := Run(u, actions).value.workers[w].completed.value.round;
            b.round == completed || b.round == completed + 1
  {
    hide Run, Steady, WorkerOk, Sources, Sent;
    RunsKeepInvariant(u, actions);
    var s := Run(u, actions).value;
    GetWorker(u, s, w);
    BatchIsDue(u, s, w, b);
  }

  /** A worker starts the next round only when it has merged what every worker sent to it in the last
      one, each batch once, and nothing of the next: its processes are those of the executor's barrier. */
  lemma DrainsAfterBarrier(u: Setup, actions: seq<Action>, w: nat)
    requires ValidSetup(u) && Run(u, actions).Some?
    requires Shaped(u, Run(u, actions).value) && Enabled(u, Run(u, actions).value, Seal(w))
    ensures var s := Run(u, actions).value;
            && s.history.merged[w] == Sources(u, s.history.prev, w)
            && (forall i | 0 <= i < |s.lps| && u.owner[i] == w :: s.lps[i] == Merged(s.history.prev, i))
            && (forall b | b in s.workers[w].pending || b in s.inboxes[w] :: b.round == s.workers[w].round)
  {
    hide Run, Steady, Sources, Merged, OldMail, Accepted, IsBehind;
    RunsKeepInvariant(u, actions);
    SealedInbox(u, Run(u, actions).value, w);
    HolderIsBehind(u, Run(u, actions).value, w);
  }

  /** The events in the queues of a worker. */
  ghost function Queued(s: Pool, w: nat): set<Event>
    requires w < |s.workers| == |s.inboxes|
  {
    set b, e | b in s.workers[w].pending + s.inboxes[w] && e in b.events :: e
  }

  lemma QueuedOld(u: Setup, s: Pool, w: nat, e: Event)
    requires ValidSetup(u) && Shaped(u, s) && w < u.workers && WorkerOk(u, s, w)
    requires NewMail(u, s.coordinator.round, s.history, s.workers, w) == {}
    requires s.coordinator.round == 0 ==> Sources(u, s.history.prev, w) == {}
    requires ModeOf(s.workers[w], s.coordinator.round) == Behind
    ensures e in Queued(s, w) <==>
            exists v :: v in Sources(u, s.history.prev, w) - s.history.merged[w] && e in Sent(u.owner, s.history.prev, v, w)
  {
    hide NewMail, Obeys, Sources, Sent, HasSent;
    var r, h := s.coordinator.round, s.history;
    if e in Queued(s, w) {
      var b :| b in s.workers[w].pending + s.inboxes[w] && e in b.events;
      MailMember(u, r, h, s.workers, s.inboxes[w], w, b);
    }
    if v :| v in Sources(u, h.prev, w) - h.merged[w] && e in Sent(u.owner, h.prev, v, w) {
      var b := Batch(r - 1, v, Sent(u.owner, h.prev, v, w));
      assert b in OldMail(u, r, h, s.workers, w);
      assert b in multiset(s.workers[w].pending) + multiset(s.inboxes[w]);
    }
  }

  lemma NoNewMail(u: Setup, s: Pool, w: nat)
    requires ValidSetup(u) && Shaped(u, s) && Steady(u, s) && w < u.workers && s.coordinator.duty.Deciding?
    ensures NewMail(u, s.coordinator.round, s.history, s.workers, w) == {}
    ensures ModeOf(s.workers[w], s.coordinator.round) == Behind
    ensures IsBehind(u, s.coordinator.round, s.history, s.lps, s.workers[w], w)
  {
    hide Steady, MailIsDue, Holds, Took, Waits, Sent;
    forall v | 0 <= v < u.workers
      ensures ModeOf(s.workers[v], s.coordinator.round) == Behind
      ensures IsBehind(u, s.coordinator.round, s.history, s.lps, s.workers[v], v)
    {
      GetWorker(u, s, v);
    }
  }

  /** What a worker holds and what waits in its queues is what it will hold after the barrier. */
  lemma HeldAndQueued(u: Setup, s: Pool, w: nat)
    requires ValidSetup(u) && Shaped(u, s) && Steady(u, s) && w < u.workers && s.coordinator.duty.Deciding?
    ensures OwnPending(u.owner, s.lps, w) + Queued(s, w) == HeldAt(u.owner, s.history.prev, w)
  {
    hide Steady, Took, Waits, NewMail, Obeys, MailIsDue, WorkerOk;
    NoNewMail(u, s, w);
    GetWorker(u, s, w);
    if s.coordinator.round == 0 {
      NoSourceAtFirst(u, s, w);
    }
    forall e
      ensures e in OwnPending(u.owner, s.lps, w) + Queued(s, w) <==> e in HeldAt(u.owner, s.history.prev, w)
    {
      hide Queued;
      QueuedOld(u, s, w, e);
      HeldEach(u, s.history.prev, s.lps, w, s.history.merged[w], e);
    }
  }

  lemma HeldEach(u: Setup, ds: Round, lps: seq<Lp>, w: nat, from: set<nat>, e: Event)
    requires ValidSetup(u) && |ds| == |lps| == |u.owner| && Holds(u.owner, lps, ds, w, from)
    ensures e in HeldAt(u.owner, ds, w) <==>
            || e in OwnPending(u.owner, lps, w)
            || exists v :: v in Sources(u, ds, w) - from && e in Sent(u.owner, ds, v, w)
  {
    if e in HeldAt(u.owner, ds, w) {
      var i :| 0 <= i < |ds| && u.owner[i] == w && e in Merged(ds, i).pending;
      if e in Inbox(ds, i) {
        var j :| 0 <= j < |ds| && e in ds[j].outbox && e.target == i;
        assert e in Sent(u.owner, ds, u.owner[j], w);
        if u.owner[j] in from {
          assert e in Received(u.owner, ds, from, i);
          assert e in lps[i].pending;
        } else {
          assert u.owner[j] in Sources(u, ds, w) - from;
        }
      } else {
        assert e in lps[i].pending;
      }
    }
    if e in OwnPending(u.owner, lps, w) {
      var i :| 0 <= i < |lps| && u.owner[i] == w && e in lps[i].pending;
      assert e in Merged(ds, i).pending;
    }
    if v :| v in Sources(u, ds, w) - from && e in Sent(u.owner, ds, v, w) {
      assert e in Inbox(ds, e.target);
      assert e in Merged(ds, e.target).pending;
    }
  }

  /** Whenever the coordinator chooses a horizon, the minimum it has for each worker is the true least
      time among what that worker holds and what waits in its queues. */
  lemma MinimaAreTrue(u: Setup, actions: seq<Action>, w: nat)
    requires ValidSetup(u) && Run(u, actions).Some? && w < u.workers
    requires var s := Run(u, actions).value;
             s.status.Running? && Shaped(u, s) && s.coordinator.duty.Deciding?
    ensures var s := Run(u, actions).value;
            s.coordinator.minima[w] == MinTime(OwnPending(u.owner, s.lps, w) + Queued(s, w))
  {
    hide Run, Steady, MinTime, HeldAt, OwnPending, Queued, Sources;
    RunsKeepInvariant(u, actions);
    var s := Run(u, actions).value;
    GetDecided(u, s);
    HeldAndQueued(u, s, w);
  }

  /** A run that ends has computed what the round executor computes. */
  lemma PoolIsExecutor(u: Setup, actions: seq<Action>)
    requires ValidSetup(u) && Run(u, actions).Some?
    requires Run(u, actions).value.status.Running? && Run(u, actions).value.coordinator.duty.Over?
    ensures RunRounds(u.m, u.config, u.plan, U64_MAX) == Some(Run(u, actions).value.lps)
  {
    hide Run, Steady, Sources, Took, Merged, RunRounds, WellKeyed;
    RunsKeepInvariant(u, actions);
    var s := Run(u, actions).value;
    GetDecided(u, s);
    GetConfirmed(u, s);
    forall w | 0 <= w < u.workers
      ensures IsGone(u, s.coordinator.round, s.history, s.lps, s.workers[w], w)
      ensures Accepted(u, s.history.prev, w, s.history.floor)
    {
      GetWorker(u, s, w);
    }
    forall i | 0 <= i < |s.lps|
      ensures s.lps[i] == Merged(s.history.prev, i)
    {
      assert IsGone(u, s.coordinator.round, s.history, s.lps, s.workers[u.owner[i]], u.owner[i]);
      ReceivedFromAll(u, s.history.prev, u.owner[i], i);
    }
    assert s.lps == Barrier(s.history.prev);
    EndedRun(u.m, s.lps, u.plan, U64_MAX - s.coordinator.round);
  }

  lemma EndedRun(m: Model, config: seq<Lp>, plan: Plan, budget: nat)
    requires WellKeyed(config) && Ended(config, plan.runEnd)
    ensures RunRounds(m, config, plan, budget) == Some(config)
  {
  }

  /** Every interleaving of the pool that ends, ends in exactly the states and pending events of the
      serial machine. */
  lemma PoolIsSerial(u: Setup, actions: seq<Action>)
    requires ValidSetup(u) && Numbers(u.m) && GoodConfig(u.m, u.config)
    requires Run(u, actions).Some?
    requires Run(u, actions).value.status.Running? && Run(u, actions).value.coordinator.duty.Over?
    ensures exists n :: EndsSerially(u.m, u.config, u.plan.runEnd, n, Run(u, actions).value.lps)
  {
    hide Run, Numbers, GoodConfig, RunRounds;
    PoolIsExecutor(u, actions);
    RoundsAreSerial(u.m, u.config, u.plan, U64_MAX, Run(u, actions).value.lps);
  }

  /** A worker that waits for batches finds one in its inbox. */
  lemma BatchArrives(u: Setup, s: Pool, w: nat)
    requires ValidSetup(u) && Shaped(u, s) && Steady(u, s) && w < u.workers
    requires s.workers[w].stage.Waiting? && s.workers[w].stage.held.Some? && s.workers[w].stage.scan == 0
    requires s.workers[w].stage.merged < s.workers[w].stage.held.value.expected
    ensures s.workers[w].completed.Some? && s.inboxes[w] != []
  {
    hide Steady, Obeys, NewMail, Sent, Holds, Took;
    HolderIsBehind(u, s, w);
    GetWorker(u, s, w);
    var r, h := s.coordinator.round, s.history;
    var missing := Sources(u, h.prev, w) - h.merged[w];
    if missing == {} {
      assert forall v | v in Sources(u, h.prev, w) :: v in missing || v in h.merged[w];
      SubsetOfSameSize(Sources(u, h.prev, w), h.merged[w]);
      assert false;
    }
    var v :| v in missing;
    if r == 0 {
      NoSourceAtFirst(u, s, w);
      assert false;
    }
    var b := Batch(r - 1, v, Sent(u.owner, h.prev, v, w));
    assert b in OldMail(u, r, h, s.workers, w);
    assert b in multiset(s.workers[w].pending) + multiset(s.inboxes[w]);
    assert b !in s.workers[w].pending;
  }

  /** A worker with an order can always go on, or its answer is waiting. */
  lemma OrderedGoesOn(u: Setup, s: Pool, w: nat) returns (a: Action)
    requires ValidSetup(u) && Shaped(u, s) && Steady(u, s) && s.status.Running? && w < u.workers
    requires OrderOf(s.coordinator, w).Ordered? && (s.coordinator.duty.Collecting? || s.coordinator.duty.Gathering?)
    ensures Enabled(u, s, a)
  {
    hide Steady, MailIsDue, Holds, Took, Launched, Sources, Sent, Accepted;
    GetWorker(u, s, w);
    var worker := s.workers[w];
    match worker.stage
    case Sending(_, _, metadata, _) => a := if |metadata| < u.workers then Send(w) else Complete(w);
    case Gone => a := Receive(w);
    case Starting => a := Receive(w);
    case Waiting(scan, held, merged) =>
      if worker.round != s.coordinator.round {
        a := Receive(w);
      } else if scan > 0 {
        a := Scan(w);
      } else if held.None? {
        a := TakeCommand(w);
      } else if held.value.expected <= merged {
        a := Seal(w);
      } else {
        BatchArrives(u, s, w);
        a := TakeBatch(w);
      }
  }

  /** The pool is never stuck: while a run has not ended or aborted, some thread can act. */
  lemma NeverStuck(u: Setup, actions: seq<Action>) returns (a: Action)
    requires ValidSetup(u) && Run(u, actions).Some?
    requires Run(u, actions).value.status.Running? && !Run(u, actions).value.coordinator.duty.Over?
    ensures Run(u, actions + [a]).Some?
  {
    hide Steady, Obeys, Initial;
    RunsKeepInvariant(u, actions);
    var s := Run(u, actions).value;
    a := SomeoneActs(u, s);
    assert (actions + [a])[..|actions|] == actions;
  }

  lemma StarterActs(u: Setup, s: Pool) returns (a: Action)
    requires ValidSetup(u) && Shaped(u, s) && Steady(u, s) && s.status.Running? && s.coordinator.duty.Preparing?
    ensures Enabled(u, s, a)
  {
    hide Steady, MailIsDue, IsBehind, MinTime, HeldAt;
    GetDecided(u, s);
    var w :| 0 <= w < u.workers && !s.coordinator.duty.ready[w];
    GetWorker(u, s, w);
    a := if s.workers[w].stage.Starting? then Announce(w) else Receive(w);
  }

  lemma PublisherActs(u: Setup, s: Pool)
    requires ValidSetup(u) && Shaped(u, s) && Steady(u, s) && s.status.Running?
    requires s.coordinator.duty.Publishing? || s.coordinator.duty.Closing?
    ensures Enabled(u, s, Publish)
  {
    hide Steady, MailIsDue, IsBehind;
    GetWorker(u, s, s.coordinator.duty.next);
  }

  lemma SomeoneActs(u: Setup, s: Pool) returns (a: Action)
    requires ValidSetup(u) && Shaped(u, s) && Steady(u, s) && s.status.Running? && !s.coordinator.duty.Over?
    ensures Enabled(u, s, a)
  {
    hide Steady, Published, Ended, Barrier, Frontier, Horizon;
    GetDecided(u, s);
    match s.coordinator.duty
    case Preparing(_) => a := StarterActs(u, s);
    case Deciding => a := Decide;
    case Publishing(_, _) =>
      PublisherActs(u, s);
      a := Publish;
    case Closing(_) =>
      PublisherActs(u, s);
      a := Publish;
    case Collecting(_, reports) =>
      var w :| 0 <= w < |reports| && reports[w].None?;
      a := OrderedGoesOn(u, s, w);
    case Gathering(finished) =>
      var w :| 0 <= w < |finished| && !finished[w];
      a := OrderedGoesOn(u, s, w);
  }
}
