/** A worker that takes a batch merges it, or keeps it aside, and never meets one it does not expect. */
module PoolMerges {
  import opened Events
  import opened LogicalProcess
  import opened Rounds
  import opened PoolState
  import opened PoolInvariant
  import opened PoolLemmas
  import opened PoolFrames
  import opened PoolSteps

  /** A waiting worker is behind or ahead. */
  lemma WaitingIs(u: Setup, s: Pool, w: nat)
    requires ValidSetup(u) && Shaped(u, s) && w < u.workers && WorkerOk(u, s, w) && s.workers[w].stage.Waiting?
    ensures var r, worker := s.coordinator.round, s.workers[w];
            if worker.round == r then IsBehind(u, r, s.history, s.lps, worker, w)
            else worker.completed.Some? && IsAhead(u, r, s.history, s.lps, worker, w, worker.completed.value.horizon)
  {
    hide Holds, Took, Launched, Reports, MailIsDue, Accepted, Waits;
  }

  /** A waiting worker whose queues and counts changed rightly still does what it was asked. */
  lemma ObeysSwap(u: Setup, r: nat, h: History, h': History, lps: seq<Lp>, lps': seq<Lp>, worker: Worker,
                  worker': Worker, channel: Option<Command>, reply: Option<Reply>, w: nat, order: Order)
    requires |h.prev| == |h.now| == |lps| == |lps'| == |u.owner| <= TIME_AFTER_U64_MAX
    requires |h.merged| == |h'.merged| == u.workers && w < u.workers
    requires h'.prev == h.prev && h'.now == h.now && h'.floor == h.floor
    requires Obeys(u, r, h, lps, worker, channel, reply, w, order)
    requires worker.stage.Waiting? && worker'.stage.Waiting? && worker'.stage.held == worker.stage.held
    requires worker'.round == worker.round && worker'.completed == worker.completed
    requires IsBehind(u, r, h, lps, worker, w) ==> IsBehind(u, r, h', lps', worker', w)
    requires worker.completed.Some? && IsAhead(u, r, h, lps, worker, w, worker.completed.value.horizon) ==>
               IsAhead(u, r, h', lps', worker', w, worker.completed.value.horizon)
    ensures Obeys(u, r, h', lps', worker', channel, reply, w, order)
  {
    hide Holds, Took, Launched, Reports, Accepted, Waits, HeldAt, IsBehind, Sources;
  }

  lemma TakeFront(s: seq<Batch>)
    requires s != []
    ensures multiset(s) == multiset{s[0]} + multiset(s[1..])
  {
    assert s == [s[0]] + s[1..];
  }

  lemma DropDue(due: set<Batch>, b: Batch, rest: multiset<Batch>)
    requires b in due && multiset{b} + rest == multiset(due)
    ensures rest == multiset(due - {b})
  {
    assert multiset(due) == multiset{b} + multiset(due - {b});
    assert rest == multiset{b} + rest - multiset{b};
  }

  /** A batch in the queues of `w` is one that is due. */
  lemma MailMember(u: Setup, r: nat, h: History, workers: seq<Worker>, inbox: seq<Batch>, w: nat, b: Batch)
    requires |h.prev| == |h.now| == |u.owner| && |workers| == |h.merged| == u.workers && w < u.workers
    requires MailIsDue(u, r, h, workers, inbox, w) && (b in workers[w].pending || b in inbox)
    ensures b in OldMail(u, r, h, workers, w) + NewMail(u, r, h, workers, w)
  {
    hide OldMail, NewMail;
    assert b in multiset(workers[w].pending) + multiset(inbox);
  }

  /** The record whose batches a waiting worker merges. */
  function Merging(r: nat, h: History, worker: Worker): Round {
    if worker.round == r then h.prev else h.now
  }

  /** What a batch in the queues of a waiting worker is. */
  lemma BatchIsDue(u: Setup, s: Pool, w: nat, b: Batch)
    requires ValidSetup(u) && Shaped(u, s) && w < u.workers && WorkerOk(u, s, w)
    requires s.workers[w].stage.Waiting? && s.workers[w].completed.Some?
    requires b in s.workers[w].pending || b in s.inboxes[w]
    ensures var worker, ds := s.workers[w], Merging(s.coordinator.round, s.history, s.workers[w]);
            if b.round == worker.completed.value.round then
              && b.source in Sources(u, ds, w) - s.history.merged[w]
              && b.events == Sent(u.owner, ds, b.source, w)
              && (worker.round != s.coordinator.round ==> HasSent(s.workers[b.source], s.coordinator.round, w))
            else
              b.round == worker.completed.value.round + 1 == worker.round
  {
    hide Holds, Took, Launched, Obeys, Sources, Sent, Waits;
    WaitingIs(u, s, w);
    MailMember(u, s.coordinator.round, s.history, s.workers, s.inboxes[w], w, b);
  }

  lemma ToOwn(owner: seq<nat>, lps: seq<Lp>, w: nat, events: set<Event>, floor: nat, v: nat)
    requires |lps| == |owner| && Mergeable(owner, lps, w, events, floor) && v != w
    ensures SameOwn(owner, lps, MergeInto(lps, events), v)
  {
    forall i | 0 <= i < |owner| && owner[i] == v
      ensures To(events, i) == {}
    {
    }
  }

  /** Merging the batch of one more source. */
  lemma MergeHolds(owner: seq<nat>, lps: seq<Lp>, ds: Round, w: nat, from: set<nat>, v: nat, floor: nat)
    requires |lps| == |ds| == |owner| && Holds(owner, lps, ds, w, from) && Took(owner, ds, w, from, floor)
    requires Mergeable(owner, lps, w, Sent(owner, ds, v, w), floor)
    ensures Holds(owner, MergeInto(lps, Sent(owner, ds, v, w)), ds, w, from + {v})
    ensures Took(owner, ds, w, from + {v}, floor)
  {
    hide Received, UniqueKeys, Sent;
    forall i | 0 <= i < |lps| && owner[i] == w
      ensures MergeInto(lps, Sent(owner, ds, v, w))[i] == Filled(owner, ds, from + {v}, i)
      ensures UniqueKeys(Filled(owner, ds, from + {v}, i).pending)
      ensures forall e | e in Received(owner, ds, from + {v}, i) :: floor <= e.key.time
    {
      ReceivedMore(owner, ds, from, v, w, i);
      assert lps[i] == Filled(owner, ds, from, i);
      var batch := To(Sent(owner, ds, v, w), i);
      assert lps[i].pending + batch == ds[i].lp.pending + (Received(owner, ds, from, i) + batch);
    }
  }

  /** The old mail of a worker that merged one more source. */
  lemma OldMailLess(u: Setup, r: nat, h: History, h': History, workers: seq<Worker>, workers': seq<Worker>, w: nat, b: Batch)
    requires |h.prev| == |u.owner| && |workers| == |workers'| == |h.merged| == |h'.merged| == u.workers && w < u.workers
    requires h'.prev == h.prev && h'.merged[w] == h.merged[w] + {b.source}
    requires ModeOf(workers[w], r) == ModeOf(workers'[w], r) == Behind && b in OldMail(u, r, h, workers, w)
    ensures OldMail(u, r, h', workers', w) == OldMail(u, r, h, workers, w) - {b}
  {
    hide Sources, Sent;
  }

  lemma NewMailLess(u: Setup, r: nat, h: History, h': History, workers: seq<Worker>, workers': seq<Worker>, w: nat, b: Batch)
    requires |h.now| == |u.owner| && |workers| == |workers'| == |h.merged| == |h'.merged| == u.workers && w < u.workers
    requires h'.now == h.now && h'.merged[w] == h.merged[w] + {b.source}
    requires forall v | 0 <= v < u.workers :: HasSent(workers[v], r, w) == HasSent(workers'[v], r, w)
    requires ModeOf(workers[w], r) == ModeOf(workers'[w], r) == Ahead && b in NewMail(u, r, h, workers, w)
    ensures NewMail(u, r, h', workers', w) == NewMail(u, r, h, workers, w) - {b}
  {
    hide Sent;
  }

  lemma NewMailSame(u: Setup, r: nat, h: History, h': History, workers: seq<Worker>, workers': seq<Worker>, w: nat)
    requires |h.now| == |u.owner| && |workers| == |workers'| == |h.merged| == |h'.merged| == u.workers && w < u.workers
    requires h'.now == h.now
    requires forall v | 0 <= v < u.workers :: HasSent(workers[v], r, w) == HasSent(workers'[v], r, w)
    requires ModeOf(workers[w], r) != Ahead && ModeOf(workers'[w], r) != Ahead
    ensures NewMail(u, r, h', workers', w) == NewMail(u, r, h, workers, w)
  {
    hide Sent;
  }

  /** `worker` is worker `w` of `s` after a batch left its queues. */
  ghost predicate Relieved(u: Setup, s: Pool, taken: Pool, w: nat, b: Batch, worker: Worker)
    requires Shaped(u, s) && w < u.workers
  {
    && |taken.inboxes| == u.workers && taken == s.(inboxes := taken.inboxes)
    && (forall v | 0 <= v < u.workers && v != w :: taken.inboxes[v] == s.inboxes[v])
    && s.workers[w].stage.Waiting? && s.workers[w].completed.Some?
    && (b in s.workers[w].pending || b in s.inboxes[w])
    && multiset(s.workers[w].pending) + multiset(s.inboxes[w]) ==
       multiset{b} + (multiset(worker.pending) + multiset(taken.inboxes[w]))
    && worker.stage.Waiting? && worker.round == s.workers[w].round && worker.completed == s.workers[w].completed
    && worker.stage.held == s.workers[w].stage.held && worker.stage.merged == s.workers[w].stage.merged
    && worker.stage.scan <= |worker.pending|
    && (forall k | worker.stage.scan <= k < |worker.pending| :: worker.pending[k].round == worker.round)
  }

  lemma OneMore(from: set<nat>, v: nat)
    requires v !in from
    ensures |from + {v}| == |from| + 1
  {
  }

  lemma BehindMerges(u: Setup, s: Pool, w: nat, b: Batch, worker: Worker, h': History)
    requires ValidSetup(u) && Shaped(u, s) && w < u.workers
    requires IsBehind(u, s.coordinator.round, s.history, s.lps, s.workers[w], w)
    requires s.workers[w].stage.Waiting? && s.workers[w].completed.Some?
    requires worker.stage.Waiting? && worker.round == s.workers[w].round && worker.completed == s.workers[w].completed
    requires worker.stage.merged == s.workers[w].stage.merged + 1 && worker.stage.scan <= |worker.pending|
    requires forall k | worker.stage.scan <= k < |worker.pending| :: worker.pending[k].round == worker.round
    requires b.source in Sources(u, s.history.prev, w) - s.history.merged[w]
    requires b.events == Sent(u.owner, s.history.prev, b.source, w)
    requires Mergeable(u.owner, s.lps, w, b.events, s.history.floor)
    requires h' == s.history.(merged := s.history.merged[w := s.history.merged[w] + {b.source}])
    ensures IsBehind(u, s.coordinator.round, h', MergeInto(s.lps, b.events), worker, w)
  {
    hide Holds, Took, Sources, Sent, Mergeable, MergeInto;
    MergeHolds(u.owner, s.lps, s.history.prev, w, s.history.merged[w], b.source, s.history.floor);
    OneMore(s.history.merged[w], b.source);
  }

  lemma AheadMerges(u: Setup, s: Pool, w: nat, b: Batch, worker: Worker, h': History, horizon: nat)
    requires ValidSetup(u) && Shaped(u, s) && w < u.workers
    requires IsAhead(u, s.coordinator.round, s.history, s.lps, s.workers[w], w, horizon)
    requires worker.stage.Waiting? && worker.round == s.workers[w].round && worker.completed == s.workers[w].completed
    requires worker.stage.held == s.workers[w].stage.held
    requires worker.stage.merged == s.workers[w].stage.merged + 1 && worker.stage.scan <= |worker.pending|
    requires forall k | worker.stage.scan <= k < |worker.pending| :: worker.pending[k].round == worker.round
    requires b.source in Sources(u, s.history.now, w) - s.history.merged[w]
    requires b.events == Sent(u.owner, s.history.now, b.source, w)
    requires Mergeable(u.owner, s.lps, w, b.events, horizon)
    requires h' == s.history.(merged := s.history.merged[w := s.history.merged[w] + {b.source}])
    ensures IsAhead(u, s.coordinator.round, h', MergeInto(s.lps, b.events), worker, w, horizon)
  {
    hide Holds, Took, Sources, Sent, Mergeable, MergeInto, Accepted, DrainedBy;
    MergeHolds(u.owner, s.lps, s.history.now, w, s.history.merged[w], b.source, horizon);
    OneMore(s.history.merged[w], b.source);
  }

  lemma MergeActs(u: Setup, s: Pool, taken: Pool, w: nat, b: Batch, worker: Worker)
    requires ValidSetup(u) && Shaped(u, s) && s.status.Running? && w < u.workers && Relieved(u, s, taken, w, b, worker)
    requires Mergeable(u.owner, s.lps, w, b.events, worker.completed.value.horizon)
    ensures WorkerActed(u, s, MergeBatch(u, taken, w, b, worker), w)
    ensures forall v | 0 <= v < u.workers ::
              HasSent(s.workers[w], s.coordinator.round, v) ==
              HasSent(MergeBatch(u, taken, w, b, worker).workers[w], s.coordinator.round, v)
  {
    hide Mergeable, MergeInto, SameOwn;
    var s' := MergeBatch(u, taken, w, b, worker);
    forall v | 0 <= v < u.workers && v != w
      ensures OtherKept(u, s, s', v)
    {
      ToOwn(u.owner, s.lps, w, b.events, worker.completed.value.horizon, v);
    }
  }

  /** The due mail splits into old and new by its round. */
  lemma MailSplits(u: Setup, r: nat, h: History, workers: seq<Worker>, w: nat, b: Batch)
    requires |h.prev| == |h.now| == |u.owner| && |workers| == |h.merged| == u.workers && w < u.workers
    requires b in OldMail(u, r, h, workers, w) + NewMail(u, r, h, workers, w)
    ensures if b.round == r then b in NewMail(u, r, h, workers, w) && b !in OldMail(u, r, h, workers, w)
            else b in OldMail(u, r, h, workers, w) && b !in NewMail(u, r, h, workers, w) && ModeOf(workers[w], r) == Behind
  {
    hide Sources, Sent;
  }

  /** Merging takes one batch off what is due. */
  lemma MergedMail(u: Setup, r: nat, h: History, h': History, workers: seq<Worker>, workers': seq<Worker>, w: nat, b: Batch)
    requires |h.prev| == |h.now| == |u.owner| && |workers| == |workers'| == |h.merged| == |h'.merged| == u.workers
    requires w < u.workers && h'.prev == h.prev && h'.now == h.now && h'.merged[w] == h.merged[w] + {b.source}
    requires forall v | 0 <= v < u.workers :: HasSent(workers[v], r, w) == HasSent(workers'[v], r, w)
    requires ModeOf(workers[w], r) == ModeOf(workers'[w], r)
    requires b in OldMail(u, r, h, workers, w) + NewMail(u, r, h, workers, w)
    requires if b.round == r then ModeOf(workers[w], r) == Ahead else ModeOf(workers[w], r) == Behind
    ensures OldMail(u, r, h', workers', w) + NewMail(u, r, h', workers', w) ==
            OldMail(u, r, h, workers, w) + NewMail(u, r, h, workers, w) - {b}
  {
    hide OldMail, NewMail, HasSent, ModeOf;
    MailSplits(u, r, h, workers, w, b);
    if b.round == r {
      NewMailLess(u, r, h, h', workers, workers', w, b);
      NoOldMail(u, r, h, workers, w);
      NoOldMail(u, r, h', workers', w);
    } else {
      OldMailLess(u, r, h, h', workers, workers', w, b);
      NewMailSame(u, r, h, h', workers, workers', w);
    }
  }

  lemma NoOldMail(u: Setup, r: nat, h: History, workers: seq<Worker>, w: nat)
    requires |h.prev| == |u.owner| && |workers| == |h.merged| == u.workers && w < u.workers
    requires ModeOf(workers[w], r) != Behind
    ensures OldMail(u, r, h, workers, w) == {}
  {
  }

  lemma MergeKeepsMail(u: Setup, s: Pool, taken: Pool, w: nat, b: Batch, worker: Worker)
    requires ValidSetup(u) && Shaped(u, s) && s.status.Running? && w < u.workers && WorkerOk(u, s, w)
    requires Relieved(u, s, taken, w, b, worker) && b.round == worker.completed.value.round
    requires Mergeable(u.owner, s.lps, w, b.events, worker.completed.value.horizon)
    ensures var s' := MergeBatch(u, taken, w, b, worker);
            MailIsDue(u, s.coordinator.round, s'.history, s'.workers, s'.inboxes[w], w)
  {
    hide Mergeable, MergeInto, Sources, Sent, Obeys, OldMail, NewMail, HasSent, OtherKept, IsAhead, Holds, Took, Waits;
    var s' := MergeBatch(u, taken, w, b, worker);
    var r, h := s.coordinator.round, s.history;
    WaitingMode(u, s, w);
    MergeActs(u, s, taken, w, b, worker);
    MailMember(u, r, h, s.workers, s.inboxes[w], w, b);
    forall v | 0 <= v < u.workers
      ensures HasSent(s.workers[v], r, w) == HasSent(s'.workers[v], r, w)
    {
      assert v == w || s'.workers[v] == s.workers[v];
    }
    MergedMail(u, r, h, s'.history, s.workers, s'.workers, w, b);
    DropDue(OldMail(u, r, h, s.workers, w) + NewMail(u, r, h, s.workers, w), b,
            multiset(worker.pending) + multiset(taken.inboxes[w]));
  }

  /** The round a waiting worker completed last. */
  lemma WaitingMode(u: Setup, s: Pool, w: nat)
    requires ValidSetup(u) && Shaped(u, s) && w < u.workers && WorkerOk(u, s, w)
    requires s.workers[w].stage.Waiting? && s.workers[w].completed.Some?
    ensures var r, worker := s.coordinator.round, s.workers[w];
            if ModeOf(worker, r) == Behind then worker.round == r && worker.completed.value.round == r - 1
            else ModeOf(worker, r) == Ahead && worker.round == r + 1 && worker.completed.value.round == r
  {
    hide Holds, Took, Launched, Obeys, MailIsDue;
    WaitingIs(u, s, w);
  }

  /** Merging a batch of the completed round keeps the invariant. */
  lemma MergeKeeps(u: Setup, s: Pool, taken: Pool, w: nat, b: Batch, worker: Worker)
    requires ValidSetup(u) && Shaped(u, s) && Steady(u, s) && s.status.Running? && w < u.workers
    requires Relieved(u, s, taken, w, b, worker) && b.round == worker.completed.value.round
    requires Mergeable(u.owner, s.lps, w, b.events, worker.completed.value.horizon)
    ensures Steady(u, MergeBatch(u, taken, w, b, worker))
  {
    hide Mergeable, MergeInto, Sources, Sent, Obeys, MailIsDue, HasSent, WorkerActed, Holds, Took, Waits, OtherKept,
         Decided, Confirmed, KnownTargets, ModeOf, Launched;
    var s' := MergeBatch(u, taken, w, b, worker);
    var r, h := s.coordinator.round, s.history;
    assert WorkerOk(u, s, w) by {
      var it := s.workers[w];
    }
    WaitingIs(u, s, w);
    WaitingMode(u, s, w);
    BatchIsDue(u, s, w, b);
    MergeActs(u, s, taken, w, b, worker);
    MergeKeepsMail(u, s, taken, w, b, worker);
    if s.workers[w].round == r {
      BehindMerges(u, s, w, b, s'.workers[w], s'.history);
    } else {
      AheadMerges(u, s, w, b, s'.workers[w], s'.history, worker.completed.value.horizon);
    }
    ObeysSwap(u, r, h, s'.history, s.lps, s'.lps, s.workers[w], s'.workers[w], s.commands[w], s.replies[w], w,
              OrderOf(s.coordinator, w));
    if ModeOf(s'.workers[w], r) == Ahead {
      SameMode(s.workers[w], s'.workers[w], r);
      IsWorker(u, Merging(r, h, s.workers[w]), w, b.source);
      forall v | v in s'.history.merged[w]
        ensures v < u.workers && HasSent(s'.workers[v], r, w)
      {
        assert v in s.history.merged[w] || v == b.source;
        assert v == w || s'.workers[v] == s.workers[v];
      }
    }
    ActedKeeps(u, s, s', w);
  }

  lemma IsWorker(u: Setup, ds: Round, w: nat, v: nat)
    requires |ds| == |u.owner| && v in Sources(u, ds, w)
    ensures v < u.workers
  {
  }

  lemma SameMode(worker: Worker, worker': Worker, r: nat)
    requires worker.stage.Waiting? && worker'.stage.Waiting? && worker.round == worker'.round
    ensures ModeOf(worker, r) == ModeOf(worker', r)
    ensures ModeOf(worker, r) == Ahead <==> worker.round != r
  {
  }
}
