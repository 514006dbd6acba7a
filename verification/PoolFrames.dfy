/** What one worker does leaves the others where they were. */
module PoolFrames {
  import opened Events
  import opened LogicalProcess
  import opened Rounds
  import opened Executor
  import opened PoolState
  import opened PoolInvariant
  import opened PoolLemmas

  ghost predicate SameOwn(owner: seq<nat>, a: seq<Lp>, b: seq<Lp>, w: nat)
    requires |a| == |b| == |owner|
  {
    forall i | 0 <= i < |owner| && owner[i] == w :: a[i] == b[i]
  }

  /** Two histories that tell the same of worker `w`. */
  ghost predicate SameStory(u: Setup, h: History, h': History, w: nat) {
    && |h.prev| == |h.now| == |h'.now| == |u.owner| <= TIME_AFTER_U64_MAX
    && |h.merged| == |h'.merged| == u.workers && w < u.workers
    && h'.prev == h.prev && h'.floor == h.floor && h'.merged[w] == h.merged[w]
    && Agree(u.owner, h.now, h'.now, {w})
  }

  lemma HoldsFrame(owner: seq<nat>, lps: seq<Lp>, lps': seq<Lp>, ds: Round, ds': Round, w: nat, from: set<nat>)
    requires |lps| == |lps'| == |ds| == |ds'| == |owner|
    requires SameOwn(owner, lps, lps', w) && Agree(owner, ds, ds', {w}) && Agree(owner, ds, ds', from)
    requires Holds(owner, lps, ds, w, from)
    ensures Holds(owner, lps', ds', w, from)
  {
    hide Received;
    forall i | 0 <= i < |lps| && owner[i] == w
      ensures lps'[i] == Filled(owner, ds', from, i)
    {
      ReceivedAgrees(owner, ds, ds', from, i);
    }
  }

  lemma TookFrame(owner: seq<nat>, ds: Round, ds': Round, w: nat, from: set<nat>, floor: nat)
    requires |ds| == |ds'| == |owner|
    requires Agree(owner, ds, ds', {w}) && Agree(owner, ds, ds', from) && Took(owner, ds, w, from, floor)
    ensures Took(owner, ds', w, from, floor)
  {
    hide Received, UniqueKeys;
    forall i | 0 <= i < |ds| && owner[i] == w
      ensures UniqueKeys(Filled(owner, ds', from, i).pending)
      ensures forall e | e in Received(owner, ds', from, i) :: floor <= e.key.time
    {
      ReceivedAgrees(owner, ds, ds', from, i);
    }
  }

  lemma SourcesFrame(u: Setup, ds: Round, ds': Round, w: nat, from: set<nat>)
    requires |ds| == |ds'| == |u.owner| && Agree(u.owner, ds, ds', from) && from <= Sources(u, ds, w)
    ensures from <= Sources(u, ds', w)
  {
    forall v | v in from
      ensures v in Sources(u, ds', w)
    {
      SentAgrees(u.owner, ds, ds', v, w);
    }
  }

  lemma ReportsFrame(u: Setup, ds: Round, ds': Round, w: nat, metadata: seq<Metadata>, minimum: Option<U64>)
    requires |ds| == |ds'| == |u.owner| && Agree(u.owner, ds, ds', {w}) && Reports(u, ds, w, metadata, minimum)
    ensures Reports(u, ds', w, metadata, minimum)
  {
    hide Sent, MetadataOf;
    forall o | 0 <= o < |metadata|
      ensures metadata[o] == MetadataOf(Sent(u.owner, ds', w, o))
    {
      SentAgrees(u.owner, ds, ds', w, o);
    }
    assert Kept(u.owner, ds, w) == Kept(u.owner, ds', w);
  }

  lemma LaunchedFrame(u: Setup, h: History, h': History, w: nat, horizon: nat)
    requires SameStory(u, h, h', w) && Launched(u, h, w, horizon)
    ensures Launched(u, h', w, horizon)
  {
    hide Accepted, Merged, UniqueKeys;
  }

  lemma BehindFrame(u: Setup, r: nat, h: History, h': History, lps: seq<Lp>, lps': seq<Lp>, worker: Worker, w: nat)
    requires SameStory(u, h, h', w) && |lps| == |lps'| == |u.owner| && SameOwn(u.owner, lps, lps', w)
    requires IsBehind(u, r, h, lps, worker, w)
    ensures IsBehind(u, r, h', lps', worker, w)
  {
    hide Holds, Took, Waits, Sources;
    HoldsFrame(u.owner, lps, lps', h.prev, h.prev, w, h.merged[w]);
  }

  lemma DrainingFrame(u: Setup, r: nat, h: History, h': History, lps: seq<Lp>, lps': seq<Lp>, worker: Worker, w: nat,
                      horizon: nat)
    requires SameStory(u, h, h', w) && |lps| == |lps'| == |u.owner| && SameOwn(u.owner, lps, lps', w)
    requires IsDraining(u, r, h, lps, worker, w, horizon)
    ensures IsDraining(u, r, h', lps', worker, w, horizon)
  {
    hide Holds, Launched, Reports, Sent;
    HoldsFrame(u.owner, lps, lps', h.now, h'.now, w, {});
    LaunchedFrame(u, h, h', w, horizon);
    ReportsFrame(u, h.now, h'.now, w, worker.stage.metadata, worker.stage.minimum);
    forall o | 0 <= o < u.workers
      ensures worker.stage.remote[o] == Sent(u.owner, h'.now, w, o)
    {
      SentAgrees(u.owner, h.now, h'.now, w, o);
    }
  }

  lemma AheadFrame(u: Setup, r: nat, h: History, h': History, lps: seq<Lp>, lps': seq<Lp>, worker: Worker, w: nat,
                   horizon: nat)
    requires SameStory(u, h, h', w) && |lps| == |lps'| == |u.owner| && SameOwn(u.owner, lps, lps', w)
    requires Agree(u.owner, h.now, h'.now, h.merged[w]) && IsAhead(u, r, h, lps, worker, w, horizon)
    ensures IsAhead(u, r, h', lps', worker, w, horizon)
  {
    hide Holds, Launched, Took, Sources;
    HoldsFrame(u.owner, lps, lps', h.now, h'.now, w, h.merged[w]);
    TookFrame(u.owner, h.now, h'.now, w, h.merged[w], horizon);
    LaunchedFrame(u, h, h', w, horizon);
    SourcesFrame(u, h.now, h'.now, w, h.merged[w]);
  }

  lemma GoneFrame(u: Setup, r: nat, h: History, h': History, lps: seq<Lp>, lps': seq<Lp>, worker: Worker, w: nat)
    requires SameStory(u, h, h', w) && |lps| == |lps'| == |u.owner| && SameOwn(u.owner, lps, lps', w)
    requires IsGone(u, r, h, lps, worker, w)
    ensures IsGone(u, r, h', lps', worker, w)
  {
    hide Holds, Accepted, Sources;
    HoldsFrame(u.owner, lps, lps', h.prev, h.prev, w, Sources(u, h.prev, w));
  }

  lemma ObeysFrame(u: Setup, r: nat, h: History, h': History, lps: seq<Lp>, lps': seq<Lp>, worker: Worker,
                   channel: Option<Command>, reply: Option<Reply>, w: nat, order: Order)
    requires SameStory(u, h, h', w) && |lps| == |lps'| == |u.owner| && SameOwn(u.owner, lps, lps', w)
    requires ModeOf(worker, r) == Ahead ==> Agree(u.owner, h.now, h'.now, h.merged[w])
    requires Obeys(u, r, h, lps, worker, channel, reply, w, order)
    ensures Obeys(u, r, h', lps', worker, channel, reply, w, order)
  {
    hide Holds, Took, Launched, Sources, Reports, Sent, HeldAt, Agree, Kept;
    match order
    case Entering => BehindFrame(u, r, h, h', lps, lps', worker, w);
    case Idle => BehindFrame(u, r, h, h', lps, lps', worker, w);
    case Ordered(command) =>
      if worker.stage.Waiting? && worker.round == r {
        BehindFrame(u, r, h, h', lps, lps', worker, w);
      } else {
        ProceedsFrame(u, r, h, h', lps, lps', worker, reply, w, command);
      }
    case Reported(horizon, report) =>
      AheadFrame(u, r, h, h', lps, lps', worker, w, horizon);
      ReportsFrame(u, h.now, h'.now, w, report.metadata, report.minimum);
    case Dismissed => GoneFrame(u, r, h, h', lps, lps', worker, w);
  }

  lemma ProceedsFrame(u: Setup, r: nat, h: History, h': History, lps: seq<Lp>, lps': seq<Lp>, worker: Worker,
                      reply: Option<Reply>, w: nat, command: Command)
    requires SameStory(u, h, h', w) && |lps| == |lps'| == |u.owner| && SameOwn(u.owner, lps, lps', w)
    requires ModeOf(worker, r) == Ahead ==> Agree(u.owner, h.now, h'.now, h.merged[w])
    requires Proceeds(u, r, h, lps, worker, reply, w, command)
    ensures Proceeds(u, r, h', lps', worker, reply, w, command)
  {
    hide Holds, Took, Launched, Sources, Reports, Sent, HeldAt, Agree, Kept;
    match command
    case Finish(_) => GoneFrame(u, r, h, h', lps, lps', worker, w);
    case RunRound(horizon, _) =>
      if worker.stage.Sending? {
        DrainingFrame(u, r, h, h', lps, lps', worker, w, horizon);
      } else {
        AheadFrame(u, r, h, h', lps, lps', worker, w, horizon);
        ReportsFrame(u, h.now, h'.now, w, reply.value.metadata, reply.value.minimum);
      }
  }

  /** Old mail depends on the receiver only. */
  lemma OldMailFrame(u: Setup, r: nat, h: History, h': History, workers: seq<Worker>, workers': seq<Worker>, w: nat)
    requires SameStory(u, h, h', w) && |workers| == |workers'| == u.workers
    requires ModeOf(workers[w], r) == ModeOf(workers'[w], r)
    ensures OldMail(u, r, h, workers, w) == OldMail(u, r, h', workers', w)
  {
  }

  /** New mail depends on who has sent, on what was sent and on what the receiver merged. */
  lemma NewMailFrame(u: Setup, r: nat, h: History, h': History, workers: seq<Worker>, workers': seq<Worker>, w: nat)
    requires |h.now| == |h'.now| == |u.owner| && |h.merged| == |h'.merged| == u.workers && w < u.workers
    requires |workers| == |workers'| == u.workers
    requires forall v | 0 <= v < u.workers :: HasSent(workers[v], r, w) == HasSent(workers'[v], r, w)
    requires forall v | 0 <= v < u.workers && HasSent(workers[v], r, w) ::
               && Agree(u.owner, h.now, h'.now, {v})
               && (ModeOf(workers[w], r) == Ahead && v in h.merged[w] <==>
                   ModeOf(workers'[w], r) == Ahead && v in h'.merged[w])
    ensures NewMail(u, r, h, workers, w) == NewMail(u, r, h', workers', w)
  {
    hide Agree, Sent, ModeOf;
    forall v | 0 <= v < u.workers && HasSent(workers[v], r, w)
      ensures Sent(u.owner, h.now, v, w) == Sent(u.owner, h'.now, v, w)
    {
      SentAgrees(u.owner, h.now, h'.now, v, w);
    }
    forall b
      ensures b in NewMail(u, r, h, workers, w) <==> b in NewMail(u, r, h', workers', w)
    {
      if b in NewMail(u, r, h, workers, w) {
        var v :| v in Sources(u, h.now, w) && HasSent(workers[v], r, w) &&
                 !(ModeOf(workers[w], r) == Ahead && v in h.merged[w]) && b == Batch(r, v, Sent(u.owner, h.now, v, w));
        assert v in Sources(u, h'.now, w) && HasSent(workers'[v], r, w);
      }
      if b in NewMail(u, r, h', workers', w) {
        var v :| v in Sources(u, h'.now, w) && HasSent(workers'[v], r, w) &&
                 !(ModeOf(workers'[w], r) == Ahead && v in h'.merged[w]) && b == Batch(r, v, Sent(u.owner, h'.now, v, w));
        assert v in Sources(u, h.now, w) && HasSent(workers[v], r, w);
      }
    }
  }
}
