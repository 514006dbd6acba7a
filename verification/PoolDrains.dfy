/** Sealing an inbox, draining, sending and completing keep the invariant of the pool. */
module PoolDrains {
  import opened Events
  import opened LogicalProcess
  import opened Rounds
  import opened Executor
  import opened PoolState
  import opened PoolInvariant
  import opened PoolLemmas
  import opened PoolFrames
  import opened PoolSteps
  import opened PoolMerges
  import opened PoolActions

  lemma {:induction false} SubsetOfSameSize(a: set<nat>, b: set<nat>)
    requires a <= b
    ensures |a| <= |b|
    ensures |a| == |b| ==> a == b
  {
    assert b == a + (b - a);
  }

  /** A worker that holds a command is behind, and was told how many batches it is due. */
  lemma HolderIsBehind(u: Setup, s: Pool, w: nat)
    requires ValidSetup(u) && Shaped(u, s) && Steady(u, s) && w < u.workers
    requires s.workers[w].stage.Waiting? && s.workers[w].stage.held.Some?
    ensures IsBehind(u, s.coordinator.round, s.history, s.lps, s.workers[w], w) && s.workers[w].round == s.coordinator.round
    ensures OrderOf(s.coordinator, w) == Ordered(s.workers[w].stage.held.value)
    ensures s.commands[w].None? && s.replies[w].None?
    ensures s.workers[w].stage.held.value.expected == |Sources(u, s.history.prev, w)|
  {
    hide Holds, Took, Launched, Reports, MailIsDue, Accepted, Waits, Confirmed, HeldAt, Horizon, Ended, Frontier, Sources;
    GetWorker(u, s, w);
  }

  /** When the count is reached, exactly the batches of the completed round have been merged. */
  lemma SealedInbox(u: Setup, s: Pool, w: nat)
    requires ValidSetup(u) && Shaped(u, s) && Steady(u, s) && w < u.workers && Enabled(u, s, Seal(w))
    ensures s.workers[w].stage.merged == s.workers[w].stage.held.value.expected
    ensures s.history.merged[w] == Sources(u, s.history.prev, w)
    ensures OldMail(u, s.coordinator.round, s.history, s.workers, w) == {}
    ensures forall i | 0 <= i < |s.lps| && u.owner[i] == w :: s.lps[i] == Merged(s.history.prev, i)
    ensures Accepted(u, s.history.prev, w, s.history.floor)
    ensures forall b | b in s.workers[w].pending || b in s.inboxes[w] :: b.round == s.coordinator.round
  {
    hide Took, Launched, Reports, MailIsDue, Confirmed, HeldAt, Horizon, Ended, Frontier, Sources, Obeys, Decided, Steady,
         Filled, Merged;
    HolderIsBehind(u, s, w);
    GetWorker(u, s, w);
    SubsetOfSameSize(s.history.merged[w], Sources(u, s.history.prev, w));
    forall i | 0 <= i < |s.lps| && u.owner[i] == w
      ensures s.lps[i] == Merged(s.history.prev, i)
    {
      ReceivedFromAll(u, s.history.prev, w, i);
    }
    forall b | b in s.workers[w].pending || b in s.inboxes[w]
      ensures b.round == s.coordinator.round
    {
      MailMember(u, s.coordinator.round, s.history, s.workers, s.inboxes[w], w, b);
      MailSplits(u, s.coordinator.round, s.history, s.workers, w, b);
    }
  }

  /** The queues of a sealed worker that stops waiting hold what they held. */
  lemma SealedMail(u: Setup, s: Pool, w: nat, workers': seq<Worker>, h': History)
    requires ValidSetup(u) && Shaped(u, s) && Steady(u, s) && w < u.workers && Enabled(u, s, Seal(w))
    requires |workers'| == u.workers && forall v | 0 <= v < u.workers && v != w :: workers'[v] == s.workers[v]
    requires workers'[w].pending == s.workers[w].pending
    requires workers'[w].stage.Gone? || (workers'[w].stage.Sending? && workers'[w].stage.metadata == [])
    requires |h'.now| == |h'.prev| == |u.owner| && |h'.merged| == u.workers
    requires forall v | 0 <= v < u.workers && v != w :: Agree(u.owner, s.history.now, h'.now, {v})
    ensures MailIsDue(u, s.coordinator.round, h', workers', s.inboxes[w], w)
  {
    hide OldMail, NewMail, Steady, Obeys, Agree, Sources, Merged, Accepted;
    SealedInbox(u, s, w);
    HolderIsBehind(u, s, w);
    GetWorker(u, s, w);
    NoOldMail(u, s.coordinator.round, h', workers', w);
    NewMailFrame(u, s.coordinator.round, s.history, h', s.workers, workers', w);
  }

  lemma FinishKeeps(u: Setup, s: Pool, w: nat)
    requires ValidSetup(u) && Inv(u, s) && Enabled(u, s, Seal(w)) && s.workers[w].stage.held.value.Finish?
    ensures Inv(u, DoSeal(u, s, w))
  {
    hide Steady, MailIsDue, Holds, Accepted, Sources, OtherKept, Obeys, Merged, Took, Waits;
    SealedInbox(u, s, w);
    HolderIsBehind(u, s, w);
    var s' := DoSeal(u, s, w);
    SealedMail(u, s, w, s'.workers, s'.history);
    FinishObeys(u, s, w);
    OnlyStageChanged(u, s, s', w);
    ActedKeeps(u, s, s', w);
  }

  lemma FinishObeys(u: Setup, s: Pool, w: nat)
    requires ValidSetup(u) && Shaped(u, s) && Steady(u, s) && Enabled(u, s, Seal(w))
    requires s.workers[w].stage.held.value.Finish?
    ensures var s' := DoSeal(u, s, w);
            Obeys(u, s.coordinator.round, s'.history, s'.lps, s'.workers[w], s'.commands[w], s'.replies[w], w,
                  OrderOf(s.coordinator, w))
  {
    hide Steady, Holds, Accepted, Sources, Merged, Took, Waits;
    SealedInbox(u, s, w);
    HolderIsBehind(u, s, w);
  }

  lemma OnlyStageChanged(u: Setup, s: Pool, s': Pool, w: nat)
    requires ValidSetup(u) && Shaped(u, s) && Shaped(u, s') && w < u.workers && s'.status.Running?
    requires s'.coordinator == s.coordinator && s'.history == s.history && s'.lps == s.lps
    requires forall v | 0 <= v < u.workers && v != w ::
               s'.workers[v] == s.workers[v] && s'.commands[v] == s.commands[v] && s'.replies[v] == s.replies[v]
    requires forall o | 0 <= o < u.workers ::
               HasSent(s.workers[w], s.coordinator.round, o) ==> HasSent(s'.workers[w], s.coordinator.round, o)
    ensures WorkerActed(u, s, s', w)
  {
    forall v | 0 <= v < u.workers && v != w
      ensures OtherKept(u, s, s', v)
    {
    }
  }

  /** What the drains of a sealed worker leave is what the executor's round leaves. */
  lemma DrainObeys(u: Setup, s: Pool, w: nat, horizon: nat, now: Round, lps: seq<Lp>)
    requires ValidSetup(u) && Shaped(u, s) && Steady(u, s) && w < u.workers && Enabled(u, s, Seal(w))
    requires Drainable(u, s.lps, w, horizon)
    requires now == DrainOwn(u, s.lps, w, horizon, s.history.now) && lps == Settled(u.owner, s.lps, now, w)
    ensures DrainedBy(u, s.history.prev, now, w, horizon)
    ensures Holds(u.owner, lps, now, w, {})
    ensures OwnPending(u.owner, lps, w) == Kept(u.owner, now, w)
  {
    hide Steady, Accepted, Sources, Merged, OldMail;
    SealedInbox(u, s, w);
    forall i | 0 <= i < |now| && u.owner[i] == w
      ensures lps[i] == Filled(u.owner, now, {}, i) == now[i].lp
    {
      NothingReceived(u.owner, now, i);
    }
  }

  lemma DrainActs(u: Setup, s: Pool, w: nat)
    requires ValidSetup(u) && Shaped(u, s) && s.status.Running? && w < u.workers && Enabled(u, s, Seal(w))
    requires s.workers[w].stage.held.value.RunRound? && s.workers[w].round == s.coordinator.round
    requires s.workers[w].stage.merged == s.workers[w].stage.held.value.expected
    requires Drainable(u, s.lps, w, s.workers[w].stage.held.value.horizon)
    ensures WorkerActed(u, s, DoSeal(u, s, w), w)
    ensures forall v | 0 <= v < u.workers && v != w :: Agree(u.owner, s.history.now, DoSeal(u, s, w).history.now, {v})
  {
    hide Drainable, Sent, OwnPending, MinTime;
    var s' := DoSeal(u, s, w);
    forall v | 0 <= v < u.workers && v != w
      ensures OtherKept(u, s, s', v)
    {
    }
  }

  lemma RunObeys(u: Setup, s: Pool, w: nat)
    requires ValidSetup(u) && Shaped(u, s) && Steady(u, s) && s.status.Running? && Enabled(u, s, Seal(w))
    requires s.workers[w].stage.held.value.RunRound?
    requires Drainable(u, s.lps, w, s.workers[w].stage.held.value.horizon)
    ensures var s' := DoSeal(u, s, w);
            Obeys(u, s.coordinator.round, s'.history, s'.lps, s'.workers[w], s'.commands[w], s'.replies[w], w,
                  OrderOf(s.coordinator, w))
  {
    hide Steady, Holds, Accepted, Sources, Took, DrainedBy, Drainable, DrainOwn, Settled, Sent, OwnPending, Kept, Merged,
         OldMail;
    SealedInbox(u, s, w);
    HolderIsBehind(u, s, w);
    var horizon := s.workers[w].stage.held.value.horizon;
    var s' := DoSeal(u, s, w);
    DrainObeys(u, s, w, horizon, s'.history.now, s'.lps);
  }

  lemma RunKeeps(u: Setup, s: Pool, w: nat)
    requires ValidSetup(u) && Inv(u, s) && Enabled(u, s, Seal(w)) && s.workers[w].stage.held.value.RunRound?
    ensures Inv(u, DoSeal(u, s, w))
  {
    hide Steady, MailIsDue, Holds, Accepted, Sources, OtherKept, Obeys, Merged, Agree, Took, Drainable, DrainOwn, Settled,
         Sent, OwnPending, MinTime, WorkerActed, OldMail;
    SealedInbox(u, s, w);
    HolderIsBehind(u, s, w);
    if Drainable(u, s.lps, w, s.workers[w].stage.held.value.horizon) {
      var s' := DoSeal(u, s, w);
      DrainActs(u, s, w);
      SealedMail(u, s, w, s'.workers, s'.history);
      RunObeys(u, s, w);
      ActedKeeps(u, s, s', w);
    }
  }

  lemma SealKeeps(u: Setup, s: Pool, w: nat)
    requires ValidSetup(u) && Inv(u, s) && Enabled(u, s, Seal(w))
    ensures Inv(u, DoSeal(u, s, w))
  {
    hide Steady, DoSeal;
    if s.workers[w].stage.held.value.Finish? {
      FinishKeeps(u, s, w);
    } else {
      RunKeeps(u, s, w);
    }
  }

  /** A worker in the middle of its sends is draining on order. */
  lemma SenderIsDraining(u: Setup, s: Pool, w: nat)
    requires ValidSetup(u) && Shaped(u, s) && Steady(u, s) && w < u.workers && s.workers[w].stage.Sending?
    ensures OrderOf(s.coordinator, w).Ordered? && OrderOf(s.coordinator, w).command.RunRound?
    ensures IsDraining(u, s.coordinator.round, s.history, s.lps, s.workers[w], w, OrderOf(s.coordinator, w).command.horizon)
    ensures s.commands[w].None? && s.replies[w].None?
  {
    hide Holds, Took, Launched, Reports, MailIsDue, Accepted, Confirmed, HeldAt, Horizon, Ended, Frontier, Sources;
    GetWorker(u, s, w);
  }

  lemma CompleteObeys(u: Setup, s: Pool, w: nat)
    requires ValidSetup(u) && Shaped(u, s) && Steady(u, s) && s.status.Running? && Enabled(u, s, Complete(w))
    requires s.workers[w].round != U64_MAX
    ensures var s' := DoComplete(u, s, w);
            && s'.status.Running?
            && Obeys(u, s.coordinator.round, s'.history, s'.lps, s'.workers[w], s'.commands[w], s'.replies[w], w,
                     OrderOf(s.coordinator, w))
  {
    hide Holds, Sources, Launched, Reports, Decided, Confirmed, WorkerOk;
    SenderIsDraining(u, s, w);
    assert Took(u.owner, s.history.now, w, {}, s.workers[w].stage.horizon) by {
      DrainedIsUnique(u, s, w);
    }
  }

  lemma DrainedIsUnique(u: Setup, s: Pool, w: nat)
    requires ValidSetup(u) && Shaped(u, s) && w < u.workers && s.workers[w].stage.Sending?
    requires IsDraining(u, s.coordinator.round, s.history, s.lps, s.workers[w], w, s.workers[w].stage.horizon)
    ensures Took(u.owner, s.history.now, w, {}, s.workers[w].stage.horizon)
  {
    hide Accepted, Holds, Reports, Sent, Merged;
    var now := s.history.now;
    forall i | 0 <= i < |now| && u.owner[i] == w
      ensures UniqueKeys(Filled(u.owner, now, {}, i).pending) && Received(u.owner, now, {}, i) == {}
    {
      NothingReceived(u.owner, now, i);
      assert Filled(u.owner, now, {}, i).pending == now[i].lp.pending;
    }
  }

  lemma CompleteKeeps(u: Setup, s: Pool, w: nat)
    requires ValidSetup(u) && Inv(u, s) && Enabled(u, s, Complete(w))
    ensures Inv(u, DoComplete(u, s, w))
  {
    hide Steady, Obeys, MailIsDue, OldMail, NewMail, WorkerActed, Launched, Holds, Reports;
    if s.workers[w].round != U64_MAX {
      var s' := DoComplete(u, s, w);
      var r := s.coordinator.round;
      CompleteObeys(u, s, w);
      SenderIsDraining(u, s, w);
      GetWorker(u, s, w);
      forall o | 0 <= o < u.workers
        ensures HasSent(s.workers[w], r, o) && HasSent(s'.workers[w], r, o)
      {
      }
      OnlyStageChanged(u, s, s', w);
      CompleteMail(u, s, w);
      ActedKeeps(u, s, s', w);
    }
  }

  lemma CompleteMail(u: Setup, s: Pool, w: nat)
    requires ValidSetup(u) && Shaped(u, s) && Steady(u, s) && s.status.Running? && Enabled(u, s, Complete(w))
    requires s.workers[w].round != U64_MAX
    ensures var s' := DoComplete(u, s, w);
            MailIsDue(u, s.coordinator.round, s'.history, s'.workers, s'.inboxes[w], w)
  {
    hide Steady, Obeys, OldMail, NewMail, Launched, Holds, Reports, Agree;
    var s', r := DoComplete(u, s, w), s.coordinator.round;
    SenderIsDraining(u, s, w);
    GetWorker(u, s, w);
    forall v | 0 <= v < u.workers
      ensures HasSent(s.workers[v], r, w) == HasSent(s'.workers[v], r, w)
      ensures Agree(u.owner, s.history.now, s'.history.now, {v})
    {
      assert v == w || s'.workers[v] == s.workers[v];
      AgreeSelf(u.owner, s.history.now, {v});
    }
    NoOldMail(u, r, s.history, s.workers, w);
    NoOldMail(u, r, s'.history, s'.workers, w);
    NewMailFrame(u, r, s.history, s'.history, s.workers, s'.workers, w);
  }

  lemma AgreeSelf(owner: seq<nat>, ds: Round, of: set<nat>)
    requires |ds| == |owner|
    ensures Agree(owner, ds, ds, of)
  {
  }

  /** A send adds one batch to the new mail of its owner, or nothing. */
  lemma NewMailGrows(u: Setup, r: nat, h: History, workers: seq<Worker>, workers': seq<Worker>, w: nat, o: nat)
    requires |h.now| == |u.owner| && |workers| == |workers'| == |h.merged| == u.workers && w < u.workers && o < u.workers
    requires forall v | 0 <= v < u.workers && v != w :: workers'[v] == workers[v]
    requires !HasSent(workers[w], r, o) && HasSent(workers'[w], r, o)
    requires ModeOf(workers[o], r) == ModeOf(workers'[o], r)
    requires ModeOf(workers[o], r) == Ahead ==> w !in h.merged[o]
    ensures var events := Sent(u.owner, h.now, w, o);
            && Batch(r, w, events) !in NewMail(u, r, h, workers, o)
            && NewMail(u, r, h, workers', o) ==
               NewMail(u, r, h, workers, o) + if events == {} then {} else {Batch(r, w, events)}
  {
    hide Sent, ModeOf, HasSent;
  }

  lemma NotOld(u: Setup, r: nat, h: History, workers: seq<Worker>, o: nat, b: Batch)
    requires |h.prev| == |u.owner| && |workers| == |h.merged| == u.workers && o < u.workers && b.round == r
    ensures b !in OldMail(u, r, h, workers, o)
  {
    hide Sent, Sources;
  }

  lemma AddDue(due: set<Batch>, queued: multiset<Batch>, b: Batch)
    requires queued == multiset(due) && b !in due
    ensures queued + multiset{b} == multiset(due + {b})
  {
  }

  lemma SendMail(u: Setup, s: Pool, w: nat, s': Pool, o: nat)
    requires ValidSetup(u) && Shaped(u, s) && Shaped(u, s') && s.status.Running? && Enabled(u, s, Send(w))
    requires s' == DoSend(u, s, w) && o == |s.workers[w].stage.metadata| && Steady(u, s)
    ensures MailIsDue(u, s.coordinator.round, s'.history, s'.workers, s'.inboxes[o], o)
  {
    hide Steady, Obeys, OldMail, NewMail, Launched, Holds, Reports, Sent, MetadataOf;
    var r, h := s.coordinator.round, s.history;
    SenderIsDraining(u, s, w);
    GetWorker(u, s, o);
    var events := Sent(u.owner, h.now, w, o);
    var b := Batch(r, w, events);
    SentNothingYet(u, s, w, o);
    NewMailGrows(u, r, h, s.workers, s'.workers, w, o);
    NotOld(u, r, h, s.workers, o, b);
    AgreeSelf(u.owner, h.now, {o});
    OldMailFrame(u, r, h, h, s.workers, s'.workers, o);
    var due := OldMail(u, r, h, s.workers, o) + NewMail(u, r, h, s.workers, o);
    AddDue(due, multiset(s.workers[o].pending) + multiset(s.inboxes[o]), b);
    assert due + {b} == OldMail(u, r, h, s.workers, o) + (NewMail(u, r, h, s.workers, o) + {b});
    assert s'.workers[o].pending == s.workers[o].pending;
  }

  lemma SentNothingYet(u: Setup, s: Pool, w: nat, o: nat)
    requires ValidSetup(u) && Shaped(u, s) && w < u.workers && o < u.workers && WorkerOk(u, s, o)
    requires s.workers[w].stage.Sending? && o == |s.workers[w].stage.metadata|
    ensures !HasSent(s.workers[w], s.coordinator.round, o)
    ensures ModeOf(s.workers[o], s.coordinator.round) == Ahead ==> w !in s.history.merged[o]
  {
    hide Obeys, MailIsDue;
  }

  lemma SendObeys(u: Setup, s: Pool, w: nat)
    requires ValidSetup(u) && Shaped(u, s) && Steady(u, s) && s.status.Running? && Enabled(u, s, Send(w))
    ensures var s' := DoSend(u, s, w);
            Obeys(u, s.coordinator.round, s'.history, s'.lps, s'.workers[w], s'.commands[w], s'.replies[w], w,
                  OrderOf(s.coordinator, w))
  {
    hide Holds, Sources, Launched, Decided, Confirmed, WorkerOk, Sent, MetadataOf, Kept, Steady;
    SenderIsDraining(u, s, w);
  }

  lemma SendActs(u: Setup, s: Pool, w: nat)
    requires ValidSetup(u) && Shaped(u, s) && s.status.Running? && Enabled(u, s, Send(w))
    ensures WorkerActed(u, s, DoSend(u, s, w), w)
    ensures forall v | 0 <= v < u.workers && v != |s.workers[w].stage.metadata| ::
              && DoSend(u, s, w).inboxes[v] == s.inboxes[v]
              && HasSent(s.workers[w], s.coordinator.round, v) == HasSent(DoSend(u, s, w).workers[w], s.coordinator.round, v)
  {
    hide MetadataOf;
    OnlyStageChanged(u, s, DoSend(u, s, w), w);
  }

  /** The mail of the sender itself, if it did not send to itself. */
  lemma SenderMail(u: Setup, s: Pool, w: nat, s': Pool)
    requires ValidSetup(u) && Shaped(u, s) && Shaped(u, s') && s.status.Running? && Enabled(u, s, Send(w))
    requires s' == DoSend(u, s, w) && w != |s.workers[w].stage.metadata| && Steady(u, s)
    ensures MailIsDue(u, s.coordinator.round, s'.history, s'.workers, s'.inboxes[w], w)
  {
    hide Steady, Obeys, OldMail, NewMail, WorkerActed, Agree, HasSent, MetadataOf;
    var r := s.coordinator.round;
    SendActs(u, s, w);
    assert MailIsDue(u, r, s.history, s.workers, s.inboxes[w], w) by {
      GetWorker(u, s, w);
    }
    forall v | 0 <= v < u.workers
      ensures HasSent(s.workers[v], r, w) == HasSent(s'.workers[v], r, w)
      ensures Agree(u.owner, s.history.now, s'.history.now, {v})
    {
      assert v == w || s'.workers[v] == s.workers[v];
      AgreeSelf(u.owner, s.history.now, {v});
    }
    NoOldMail(u, r, s.history, s.workers, w);
    NoOldMail(u, r, s'.history, s'.workers, w);
    NewMailFrame(u, r, s.history, s'.history, s.workers, s'.workers, w);
  }

  lemma SendWorkerOk(u: Setup, s: Pool, w: nat, v: nat)
    requires ValidSetup(u) && Shaped(u, s) && Steady(u, s) && s.status.Running? && Enabled(u, s, Send(w)) && v < u.workers
    ensures Shaped(u, DoSend(u, s, w)) && WorkerOk(u, DoSend(u, s, w), v)
  {
    hide Steady, Obeys, MailIsDue, WorkerActed, HasSent, MetadataOf;
    var s', o := DoSend(u, s, w), |s.workers[w].stage.metadata|;
    GetWorker(u, s, v);
    SendActs(u, s, w);
    SendMail(u, s, w, s', o);
    if v == w {
      SendObeys(u, s, w);
      if v != o {
        SenderMail(u, s, w, s');
      }
    } else if v == o {
      OthersObey(u, s, s', w, v);
      OthersWereSent(u, s, s', w, v);
    } else {
      OthersOk(u, s, s', w, v);
    }
  }

  lemma SendKeeps(u: Setup, s: Pool, w: nat)
    requires ValidSetup(u) && Inv(u, s) && Enabled(u, s, Send(w))
    ensures Inv(u, DoSend(u, s, w))
  {
    hide WorkerOk, Decided, Confirmed, KnownTargets, MetadataOf;
    var s' := DoSend(u, s, w);
    forall v | 0 <= v < u.workers
      ensures WorkerOk(u, s', v)
    {
      SendWorkerOk(u, s, w, v);
    }
  }
}
