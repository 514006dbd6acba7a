/** The pool aborts only where the round executor fails, so its outcome does not depend on the schedule. */
module PoolAborts {
  import opened Events
  import opened LogicalProcess
  import opened Rounds
  import opened Executor
  import opened PoolState
  import opened PoolInvariant
  import opened PoolLemmas
  import opened PoolFrames
  import opened PoolMerges
  import opened PoolActions
  import opened PoolDrains
  import opened PoolCoordinator
  import opened PoolRuns
  import Completeness

  /** Events sent above the floor are numbered apart from all others. */
  ghost predicate Orderly(u: Setup, ds: Round, floor: nat) {
    SendsAbove(ds, floor) ==> Good(u.m, ds)
  }

  /** Two sources never send the same event, and none that its target already holds. */
  lemma NoEventTwice(u: Setup, ds: Round, w: nat, from: set<nat>, v: nat, i: nat)
    requires |ds| == |u.owner| && Good(u.m, ds) && v !in from && i < |ds| && u.owner[i] == w
    ensures Filled(u.owner, ds, from, i).pending !! To(Sent(u.owner, ds, v, w), i)
  {
    forall e | e in To(Sent(u.owner, ds, v, w), i)
      ensures e !in Filled(u.owner, ds, from, i).pending
    {
      var j :| 0 <= j < |ds| && u.owner[j] == v && e in ds[j].outbox && e.target < |ds| && u.owner[e.target] == w;
      assert e in Held(ds[j]) && SameKey(e, e);
      assert e in ds[i].lp.pending ==> e in Held(ds[i]);
      assert forall k | 0 <= k < |ds| && e in ds[k].outbox :: e in Held(ds[k]);
    }
  }

  /** A batch that cannot be merged shows that the barrier does not accept. */
  lemma MergeRefusalIsReal(u: Setup, ds: Round, lps: seq<Lp>, w: nat, from: set<nat>, v: nat, floor: nat)
    requires ValidSetup(u) && |ds| == |lps| == |u.owner| && Orderly(u, ds, floor)
    requires Holds(u.owner, lps, ds, w, from) && v in Sources(u, ds, w) - from && from <= Sources(u, ds, w)
    requires !Mergeable(u.owner, lps, w, Sent(u.owner, ds, v, w), floor)
    ensures !Accepts(ds, floor)
  {
    hide UniqueKeys;
    if Accepts(ds, floor) {
      var events := Sent(u.owner, ds, v, w);
      forall i | 0 <= i < |lps| && u.owner[i] == w
        ensures UniqueKeys(lps[i].pending + To(events, i)) && lps[i].pending !! To(events, i)
      {
        NoEventTwice(u, ds, w, from, v, i);
        PartOfMerged(u, ds, lps[i].pending + To(events, i), w, from, v, i);
      }
      assert false;
    }
  }

  lemma PartOfMerged(u: Setup, ds: Round, part: set<Event>, w: nat, from: set<nat>, v: nat, i: nat)
    requires ValidSetup(u) && |ds| == |u.owner| && i < |ds| && u.owner[i] == w && UniqueKeys(Merged(ds, i).pending)
    requires part == Filled(u.owner, ds, from, i).pending + To(Sent(u.owner, ds, v, w), i)
    ensures UniqueKeys(part)
  {
    assert part <= Merged(ds, i).pending;
  }

  /** Whatever the other workers do, a refused merge means that the executor fails. */
  lemma BehindAborts(u: Setup, s: Pool, w: nat, v: nat)
    requires ValidSetup(u) && Shaped(u, s) && Steady(u, s) && w < u.workers
    requires Orderly(u, s.history.prev, s.history.floor)
    requires IsBehind(u, s.coordinator.round, s.history, s.lps, s.workers[w], w) && s.workers[w].stage.Waiting?
    requires v in Sources(u, s.history.prev, w) - s.history.merged[w]
    requires !Mergeable(u.owner, s.lps, w, Sent(u.owner, s.history.prev, v, w), s.history.floor)
    ensures RunRounds(u.m, u.config, u.plan, U64_MAX) == None
  {
    hide Orderly, Holds, Took, Mergeable, Accepts, RunRounds, Sources, WorkerOk, Decided, Sent;
    MergeRefusalIsReal(u, s.history.prev, s.lps, w, s.history.merged[w], v, s.history.floor);
    AllAccepted(u, s.history.prev, s.history.floor);
  }

  /** What the executor's drains would be, and how they agree with those of the workers so far. */
  lemma RestOfRound(u: Setup, s: Pool, horizon: nat) returns (ds: Option<Round>)
    requires ValidSetup(u) && Shaped(u, s) && Confirmed(u, s.history.prev, s.history.floor, s.coordinator.round)
    requires !Ended(Barrier(s.history.prev), u.plan.runEnd) && s.coordinator.round < U64_MAX
    requires horizon == Horizon(Frontier(Barrier(s.history.prev)).value, u.plan.lookahead, u.plan.runEnd)
    ensures ds.None? ==> RunRounds(u.m, u.config, u.plan, U64_MAX) == None
    ensures ds.Some? ==>
              && |ds.value| == |u.owner| && WellKeyed(Barrier(s.history.prev)) && AcceptedByAll(u, s.history.prev, s.history.floor)
              && DrainAll(u.m, Barrier(s.history.prev), horizon, u.plan.capacity) == ds
              && (!Accepts(ds.value, horizon) ==> RunRounds(u.m, u.config, u.plan, U64_MAX) == None)
  {
    hide Accepted, DrainAll, Ended, Horizon, Barrier;
    ds := None;
    if AcceptedByAll(u, s.history.prev, s.history.floor) {
      ds := DrainAll(u.m, Barrier(s.history.prev), horizon, u.plan.capacity);
      DrainAllSize(u.m, Barrier(s.history.prev), horizon, u.plan.capacity);
      BarrierSize(s.history.prev);
    }
  }

  lemma DrainAllSize(m: Model, config: seq<Lp>, horizon: nat, capacity: Option<nat>)
    requires WellKeyed(config)
    ensures DrainAll(m, config, horizon, capacity).Some? ==> |DrainAll(m, config, horizon, capacity).value| == |config|
  {
  }

  lemma BarrierSize(ds: Round)
    ensures |Barrier(ds)| == |ds|
  {
  }

  lemma LaunchedAgrees(u: Setup, s: Pool, horizon: nat, ds: Round, w: nat)
    requires ValidSetup(u) && Shaped(u, s) && |ds| == |u.owner| && WellKeyed(Barrier(s.history.prev))
    requires DrainAll(u.m, Barrier(s.history.prev), horizon, u.plan.capacity) == Some(ds)
    requires Launched(u, s.history, w, horizon)
    ensures Agree(u.owner, s.history.now, ds, {w})
  {
    hide Accepted, Merged, UniqueKeys;
  }

  /** The round of the executor from a good configuration is orderly. */
  lemma RoundIsOrderly(u: Setup, prev: Round, floor: nat, horizon: nat, ds: Round)
    requires ValidSetup(u) && |prev| == |ds| == |u.owner| && Numbers(u.m)
    requires Orderly(u, prev, floor) && KnownTargets(prev) && AcceptedByAll(u, prev, floor)
    requires WellKeyed(Barrier(prev)) && DrainAll(u.m, Barrier(prev), horizon, u.plan.capacity) == Some(ds)
    ensures Orderly(u, ds, horizon)
  {
    hide Good, Numbers, Merged, Accepted, WellKeyed;
    AllAccepted(u, prev, floor);
    BarrierIsGood(u.m, prev, floor);
    if SendsAbove(ds, horizon) {
      DrainsOfRound(u.m, Barrier(prev), horizon, u.plan.capacity, ds);
      var n := DrainsRunSerially(u.m, Start(Barrier(prev)), horizon, u.plan.capacity, seq(|ds|, _ => U64_MAX), ds);
    }
  }

  lemma DrainsOfRound(m: Model, config: seq<Lp>, horizon: nat, capacity: Option<nat>, ds: Round)
    requires WellKeyed(config) && DrainAll(m, config, horizon, capacity) == Some(ds)
    ensures |ds| == |config| && Drains(m, Start(config), horizon, capacity, seq(|ds|, _ => U64_MAX), ds)
  {
  }

  lemma AheadAborts(u: Setup, s: Pool, w: nat, v: nat, horizon: nat)
    requires ValidSetup(u) && Numbers(u.m) && Shaped(u, s) && Steady(u, s) && w < u.workers && v < u.workers
    requires Orderly(u, s.history.prev, s.history.floor)
    requires IsAhead(u, s.coordinator.round, s.history, s.lps, s.workers[w], w, horizon)
    requires Launched(u, s.history, v, horizon)
    requires forall x | x in s.history.merged[w] :: x < u.workers && Launched(u, s.history, x, horizon)
    requires !Ended(Barrier(s.history.prev), u.plan.runEnd)
    requires horizon == Horizon(Frontier(Barrier(s.history.prev)).value, u.plan.lookahead, u.plan.runEnd)
    requires v in Sources(u, s.history.now, w) - s.history.merged[w]
    requires !Mergeable(u.owner, s.lps, w, Sent(u.owner, s.history.now, v, w), horizon)
    ensures RunRounds(u.m, u.config, u.plan, U64_MAX) == None
  {
    hide Orderly, Holds, Took, Mergeable, Accepts, RunRounds, WorkerOk, Decided, Sent, DrainAll, Numbers, Agree,
         DrainedBy, Accepted, Ended, Horizon, Barrier, WellKeyed, AcceptedByAll;
    var drained := RestOfRound(u, s, horizon);
    if drained.Some? {
      var ds, h := drained.value, s.history;
      RoundIsOrderly(u, h.prev, h.floor, horizon, ds);
      LaunchedAgrees(u, s, horizon, ds, w);
      LaunchedAgrees(u, s, horizon, ds, v);
      SentAgrees(u.owner, h.now, ds, v, w);
      forall x | x in h.merged[w]
        ensures Agree(u.owner, h.now, ds, {x})
      {
        LaunchedAgrees(u, s, horizon, ds, x);
      }
      AgreeOnAll(u.owner, h.now, ds, h.merged[w]);
      AgreeSelf(u.owner, h.now, {w});
      HoldsFrame(u.owner, s.lps, s.lps, h.now, ds, w, h.merged[w]);
      SourcesFrame(u, h.now, ds, w, h.merged[w]);
      SourcesFrame(u, h.now, ds, w, {v});
      MergeRefusalIsReal(u, ds, s.lps, w, h.merged[w], v, horizon);
    }
  }

  lemma AgreeOnAll(owner: seq<nat>, a: Round, b: Round, of: set<nat>)
    requires |a| == |b| == |owner| && forall x | x in of :: Agree(owner, a, b, {x})
    ensures Agree(owner, a, b, of)
  {
    forall j | 0 <= j < |owner| && owner[j] in of
      ensures a[j] == b[j]
    {
      assert Agree(owner, a, b, {owner[j]});
    }
  }

  /** A worker that is ahead or draining has launched the round the coordinator chose. */
  lemma SenderLaunched(u: Setup, s: Pool, v: nat, o: nat)
    requires ValidSetup(u) && Shaped(u, s) && Steady(u, s) && v < u.workers && HasSent(s.workers[v], s.coordinator.round, o)
    ensures s.coordinator.duty.Publishing? || s.coordinator.duty.Collecting?
    ensures Launched(u, s.history, v, s.coordinator.duty.horizon)
  {
    hide Steady, Holds, Took, Launched, Reports, MailIsDue, Accepted, Sources, Sent;
    GetWorker(u, s, v);
  }

  /** A batch that a worker cannot merge means that the executor fails. */
  lemma MergeAborts(u: Setup, s: Pool, w: nat, b: Batch)
    requires ValidSetup(u) && Numbers(u.m) && Shaped(u, s) && Steady(u, s) && s.status.Running? && w < u.workers
    requires Orderly(u, s.history.prev, s.history.floor)
    requires s.workers[w].stage.Waiting? && s.workers[w].completed.Some?
    requires (b in s.workers[w].pending || b in s.inboxes[w]) && b.round == s.workers[w].completed.value.round
    requires !Mergeable(u.owner, s.lps, w, b.events, s.workers[w].completed.value.horizon)
    ensures RunRounds(u.m, u.config, u.plan, U64_MAX) == None
  {
    hide Steady, Orderly, Mergeable, Sources, Sent, Obeys, RunRounds, Numbers, Holds, Took, Waits, Launched, MailIsDue,
         HasSent, Horizon, Ended, Frontier, Barrier;
    GetWorker(u, s, w);
    WaitingIs(u, s, w);
    WaitingMode(u, s, w);
    BatchIsDue(u, s, w, b);
    if s.workers[w].round == s.coordinator.round {
      BehindAborts(u, s, w, b.source);
    } else {
      IsWorker(u, s.history.now, w, b.source);
      SenderLaunched(u, s, b.source, w);
      SameHorizon(u, s, w);
      GetDecided(u, s);
      forall x | x in s.history.merged[w]
        ensures x < u.workers && Launched(u, s.history, x, s.coordinator.duty.horizon)
      {
        SameMode(s.workers[w], s.workers[w], s.coordinator.round);
        SenderLaunched(u, s, x, w);
      }
      AheadAborts(u, s, w, b.source, s.coordinator.duty.horizon);
    }
  }

  lemma SameHorizon(u: Setup, s: Pool, w: nat)
    requires ValidSetup(u) && Shaped(u, s) && Steady(u, s) && w < u.workers
    requires s.workers[w].stage.Waiting? && s.workers[w].round != s.coordinator.round
    ensures s.coordinator.duty.Publishing? || s.coordinator.duty.Collecting?
    ensures IsAhead(u, s.coordinator.round, s.history, s.lps, s.workers[w], w, s.coordinator.duty.horizon)
  {
    hide Steady, Holds, Took, Launched, Reports, MailIsDue, Accepted, Sources, Sent;
    GetWorker(u, s, w);
  }

  /** A drain that fails, or sends to an unknown target, means that the executor fails. */
  lemma DrainAborts(u: Setup, s: Pool, w: nat)
    requires ValidSetup(u) && Shaped(u, s) && Steady(u, s) && s.status.Running? && Enabled(u, s, Seal(w))
    requires s.workers[w].stage.held.value.RunRound?
    requires !Drainable(u, s.lps, w, s.workers[w].stage.held.value.horizon)
    ensures RunRounds(u.m, u.config, u.plan, U64_MAX) == None
  {
    hide Steady, Drainable, Sources, Sent, Obeys, RunRounds, Holds, Took, Waits, Launched, MailIsDue, Merged, IsBehind,
         HasSent, Ended, DrainAll, Barrier, Accepts, OldMail, AcceptedByAll, WellKeyed;
    HolderIsBehind(u, s, w);
    SealedInbox(u, s, w);
    GetDecided(u, s);
    GetConfirmed(u, s);
    var horizon := s.workers[w].stage.held.value.horizon;
    if s.coordinator.round == U64_MAX {
      NoBudget(u, s);
    } else {
      var drained := RestOfRound(u, s, horizon);
      if drained.Some? {
        DrainRefusalIsReal(u, s, w, horizon, drained.value);
      }
    }
  }

  /** The last round number has no round after it. */
  lemma NoBudget(u: Setup, s: Pool)
    requires ValidSetup(u) && Shaped(u, s) && Confirmed(u, s.history.prev, s.history.floor, s.coordinator.round)
    requires s.coordinator.round == U64_MAX && !Ended(Barrier(s.history.prev), u.plan.runEnd)
    ensures RunRounds(u.m, u.config, u.plan, U64_MAX) == None
  {
    hide AcceptedByAll, Ended, Barrier;
  }

  lemma DrainRefusalIsReal(u: Setup, s: Pool, w: nat, horizon: nat, ds: Round)
    requires ValidSetup(u) && Shaped(u, s) && |ds| == |u.owner| && WellKeyed(Barrier(s.history.prev))
    requires DrainAll(u.m, Barrier(s.history.prev), horizon, u.plan.capacity) == Some(ds)
    requires forall i | 0 <= i < |s.lps| && u.owner[i] == w :: s.lps[i] == Merged(s.history.prev, i)
    requires !Drainable(u, s.lps, w, horizon)
    ensures !Accepts(ds, horizon)
  {
    hide Merged, UniqueKeys, SendsAbove;
    var i :| 0 <= i < |s.lps| && u.owner[i] == w &&
             !(UniqueKeys(s.lps[i].pending) && DrainLp(u.m, i, s.lps[i], horizon, u.plan.capacity).Some? &&
               forall e | e in DrainLp(u.m, i, s.lps[i], horizon, u.plan.capacity).value.outbox :: e.target < |s.lps|);
    assert s.lps[i] == Barrier(s.history.prev)[i];
    assert DrainLp(u.m, i, s.lps[i], horizon, u.plan.capacity) == Some(ds[i]);
  }

  lemma CompleteAborts(u: Setup, s: Pool, w: nat)
    requires ValidSetup(u) && Shaped(u, s) && Steady(u, s) && s.status.Running? && Enabled(u, s, Complete(w))
    requires s.workers[w].round == U64_MAX
    ensures RunRounds(u.m, u.config, u.plan, U64_MAX) == None
  {
    hide Steady, RunRounds, Ended, Barrier, Launched, Holds, Reports, Sent;
    SenderIsDraining(u, s, w);
    GetDecided(u, s);
    GetConfirmed(u, s);
    NoBudget(u, s);
  }

  /** No report can overflow the round number: its worker would have aborted before. */
  lemma ReceiveGoesOn(u: Setup, s: Pool, w: nat)
    requires ValidSetup(u) && Shaped(u, s) && Steady(u, s) && s.status.Running? && Enabled(u, s, Receive(w))
    ensures !DoReceive(u, s, w).status.Aborted?
  {
    hide Steady, Launched, Holds, Took, Reports, Sources, MailIsDue, FoldedMinimum, FoldedCount, Obeys;
    if s.coordinator.duty.Collecting? {
      ReportArrives(u, s, w);
    }
  }

  /** Only an abort of the executor aborts the pool. */
  lemma AbortIsReal(u: Setup, s: Pool, a: Action)
    requires ValidSetup(u) && Numbers(u.m) && Inv(u, s) && s.status.Running? && Enabled(u, s, a)
    requires Orderly(u, s.history.prev, s.history.floor) && Act(u, s, a).status.Aborted?
    ensures RunRounds(u.m, u.config, u.plan, U64_MAX) == None
  {
    hide Steady, RunRounds, Mergeable, Drainable, DrainOwn, Settled, MergeInto, Sent, OwnPending, MinTime, DoReceive, Orderly,
         Numbers;
    match a
    case Scan(w) => MergeAborts(u, s, w, s.workers[w].pending[0]);
    case TakeBatch(w) => MergeAborts(u, s, w, s.inboxes[w][0]);
    case Seal(w) => DrainAborts(u, s, w);
    case Complete(w) => CompleteAborts(u, s, w);
    case Receive(w) => ReceiveGoesOn(u, s, w);
    case _ =>
  }

  /** When the last report of a round is in, all workers have launched it. */
  lemma TurnIsOrderly(u: Setup, s: Pool, w: nat)
    requires ValidSetup(u) && Numbers(u.m) && Shaped(u, s) && Steady(u, s) && s.status.Running? && Enabled(u, s, Receive(w))
    requires Orderly(u, s.history.prev, s.history.floor) && s.coordinator.duty.Collecting?
    requires forall v | 0 <= v < u.workers && v != w :: s.coordinator.duty.reports[v].Some?
    ensures Orderly(u, s.history.now, s.coordinator.duty.horizon)
  {
    hide Steady, Orderly, Numbers, Launched, Holds, Took, Reports, Sources, MailIsDue, DrainAll, Barrier, Ended, Confirmed;
    GetConfirmed(u, s);
    KnowsTargets(u, s);
    forall v | 0 <= v < u.workers
      ensures Launched(u, s.history, v, s.coordinator.duty.horizon)
    {
      if v == w {
        ReportArrives(u, s, w);
      } else {
        Collected(u, s, v);
      }
    }
    AllDrained(u, s, s.coordinator.duty.horizon);
    RoundIsOrderly(u, s.history.prev, s.history.floor, s.coordinator.duty.horizon, s.history.now);
  }

  lemma KnowsTargets(u: Setup, s: Pool)
    requires ValidSetup(u) && Shaped(u, s) && Steady(u, s)
    ensures KnownTargets(s.history.prev)
  {
  }

  lemma ReceiveIsOrderly(u: Setup, s: Pool, w: nat)
    requires ValidSetup(u) && Numbers(u.m) && Inv(u, s) && s.status.Running? && Enabled(u, s, Receive(w))
    requires Orderly(u, s.history.prev, s.history.floor)
    ensures Orderly(u, DoReceive(u, s, w).history.prev, DoReceive(u, s, w).history.floor)
  {
    hide Steady, Orderly, Numbers, FoldedMinimum, FoldedCount;
    if s.coordinator.duty.Collecting? {
      if forall v | 0 <= v < u.workers && v != w :: s.coordinator.duty.reports[v].Some? {
        TurnIsOrderly(u, s, w);
      } else if s.replies[w].value.RoundComplete? {
        var v :| 0 <= v < u.workers && v != w && s.coordinator.duty.reports[v].None?;
        var reply := s.replies[w].value;
        assert s.coordinator.duty.reports[w := Some(Report(reply.metadata, reply.minimum))][v].None?;
      }
    }
  }

  /** Actions other than a last report leave the last completed round alone. */
  lemma ActIsOrderly(u: Setup, s: Pool, a: Action)
    requires ValidSetup(u) && Numbers(u.m) && Inv(u, s) && s.status.Running? && Enabled(u, s, a)
    requires Orderly(u, s.history.prev, s.history.floor)
    ensures Orderly(u, Act(u, s, a).history.prev, Act(u, s, a).history.floor)
  {
    hide Steady, Orderly, Numbers, Mergeable, Drainable, DrainOwn, Settled, MergeInto, Sent, OwnPending, MinTime, DoReceive,
         MetadataOf;
    if a.Receive? {
      ReceiveIsOrderly(u, s, a.w);
    }
  }

  lemma {:induction false} RunsAreOrderly(u: Setup, actions: seq<Action>)
    requires ValidSetup(u) && Numbers(u.m) && GoodConfig(u.m, u.config) && Run(u, actions).Some?
    ensures Orderly(u, Run(u, actions).value.history.prev, Run(u, actions).value.history.floor)
  {
    hide Numbers, GoodConfig, Inv, Act, Enabled, Orderly;
    if actions == [] {
      StartIsOrderly(u);
    } else {
      var before := actions[..|actions| - 1];
      RunsAreOrderly(u, before);
      RunsKeepInvariant(u, before);
      IsRunning(u, Run(u, before).value, actions[|actions| - 1]);
      ActIsOrderly(u, Run(u, before).value, actions[|actions| - 1]);
    }
  }

  lemma IsRunning(u: Setup, s: Pool, a: Action)
    requires ValidSetup(u) && Shaped(u, s) && Enabled(u, s, a)
    ensures s.status.Running?
  {
  }

  lemma StartIsOrderly(u: Setup)
    requires ValidSetup(u) && GoodConfig(u.m, u.config)
    ensures Orderly(u, Initial(u).history.prev, Initial(u).history.floor)
  {
  }

  /** A run that aborts, aborts because the round executor fails on the same input. */
  lemma {:induction false} PoolAbortsWithExecutor(u: Setup, actions: seq<Action>)
    requires ValidSetup(u) && Numbers(u.m) && GoodConfig(u.m, u.config)
    requires Run(u, actions).Some? && Run(u, actions).value.status.Aborted?
    ensures RunRounds(u.m, u.config, u.plan, U64_MAX) == None
  {
    hide Numbers, GoodConfig, Inv, Act, Enabled, Orderly, RunRounds;
    var before := actions[..|actions| - 1];
    RunsAreOrderly(u, before);
    RunsKeepInvariant(u, before);
    IsRunning(u, Run(u, before).value, actions[|actions| - 1]);
    AbortIsReal(u, Run(u, before).value, actions[|actions| - 1]);
  }

  ghost predicate IsFinal(s: Pool) {
    s.status.Aborted? || (s.status.Running? && s.coordinator.duty.Over?)
  }

  /** The schedule does not matter: of two runs that end, either both abort or both end alike. */
  lemma OneOutcome(u: Setup, one: seq<Action>, other: seq<Action>)
    requires ValidSetup(u) && Numbers(u.m) && GoodConfig(u.m, u.config)
    requires Run(u, one).Some? && Run(u, other).Some? && IsFinal(Run(u, one).value) && IsFinal(Run(u, other).value)
    ensures var s, t := Run(u, one).value, Run(u, other).value;
            s.status == t.status && (s.status.Running? ==> s.lps == t.lps)
  {
    hide Numbers, GoodConfig, Run, RunRounds;
    if Run(u, one).value.status.Aborted? {
      PoolAbortsWithExecutor(u, one);
    } else {
      PoolIsExecutor(u, one);
    }
    if Run(u, other).value.status.Aborted? {
      PoolAbortsWithExecutor(u, other);
    } else {
      PoolIsExecutor(u, other);
    }
  }

  /** If channels keep the lookahead and the serial machine finishes, no schedule of the pool aborts,
      and every one that ends has the serial result. */
  lemma CausalPoolSucceeds(u: Setup, actions: seq<Action>, n: nat, g: Completeness.Serial.Machine)
    requires ValidSetup(u) && Numbers(u.m) && GoodConfig(u.m, u.config)
    requires Completeness.Causal(u.m, |u.config|, u.plan.lookahead)
    requires (u.plan.lookahead.Some? ==> u.plan.lookahead.value > 0) && u.plan.capacity.None?
    requires Completeness.EndsIn(u.m, Start(u.config), u.plan.runEnd, n, g) && n <= U64_MAX
    requires Run(u, actions).Some?
    ensures Run(u, actions).value.status.Running?
    ensures Run(u, actions).value.coordinator.duty.Over? ==> Flat(Start(Run(u, actions).value.lps)) == g
  {
    hide Numbers, GoodConfig, Run, RunRounds, Inv, Completeness.Causal, Completeness.EndsIn, Flat;
    var final := Completeness.SerialIsRounds(u.m, u.config, u.plan, U64_MAX, n, g);
    RunsKeepInvariant(u, actions);
    if Run(u, actions).value.status.Aborted? {
      PoolAbortsWithExecutor(u, actions);
    } else if Run(u, actions).value.coordinator.duty.Over? {
      PoolIsExecutor(u, actions);
    }
  }
}
