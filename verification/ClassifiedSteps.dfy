/** Every step of the classified pool keeps its invariant. */
module ClassifiedSteps {
  import opened Events
  import opened LogicalProcess
  import opened Rounds
  import opened Executor
  import opened ClassifiedRound
  import opened ClassifiedPool
  import Pool = PoolState
  import PoolInvariant
  import PoolLemmas
  import Exchange

  // Without what the messages carry, the steps are those of the exchange.

  lemma PlainSnoc(queue: seq<Message>, m: Message)
    ensures Plain(queue + [m]) == Plain(queue) + [Exchange.Message(m.round, m.source)]
  {
  }

  lemma PlainTail(queue: seq<Message>)
    requires queue != []
    ensures Plain(queue[1..]) == Plain(queue)[1..]
  {
  }

  lemma ErasedPut(s: Crew, s': Crew, t: nat, x: nat, queue: seq<Message>)
    requires t < |s.channels| && x < |s.channels[t]|
    requires s'.channels == s.channels[t := s.channels[t][x := queue]]
    ensures Erased(s').channels == Exchange.Put(Erased(s).channels, t, x, Plain(queue))
  {
    hide Plain;
    assert PlainRow(s.channels[t][x := queue]) == PlainRow(s.channels[t])[x := Plain(queue)];
    forall k | 0 <= k < |s.channels|
      ensures Erased(s').channels[k] == Exchange.Put(Erased(s).channels, t, x, Plain(queue))[k]
    {
    }
  }

  lemma EnabledErased(c: Setup, s: Crew, a: Action)
    requires ValidSetup(c) && Shaped(c, s) && Enabled(c, s, a)
    ensures Exchange.ValidSetup(Wires(c)) && Exchange.Shaped(Wires(c), Erased(s)) && Exchange.Enabled(Wires(c), Erased(s), a)
  {
  }

  lemma SendErased(c: Setup, s: Crew, w: nat)
    requires ValidSetup(c) && Shaped(c, s) && Enabled(c, s, Exchange.Send(w))
    requires Exchange.Shaped(Wires(c), Erased(s)) && Exchange.Enabled(Wires(c), Erased(s), Exchange.Send(w))
    ensures Erased(DoSend(c, s, w)) == Exchange.Act(Wires(c), Erased(s), Exchange.Send(w))
  {
    hide Content, Plain;
    var p, s' := s.peers[w], DoSend(c, s, w);
    var queue := s'.channels[p.stage][p.sent];
    ErasedPut(s, s', p.stage, p.sent, queue);
    PlainSnoc(s.channels[p.stage][p.sent], queue[|queue| - 1]);
  }

  lemma ReadErased(c: Setup, s: Crew, w: nat)
    requires ValidSetup(c) && Shaped(c, s) && Enabled(c, s, Exchange.Read(w))
    requires Exchange.Shaped(Wires(c), Erased(s)) && Exchange.Enabled(Wires(c), Erased(s), Exchange.Read(w))
    requires Expected(c, s.peers[w], s.channels[s.peers[w].stage][w][0])
    ensures Erased(DoRead(c, s, w)) == Exchange.Act(Wires(c), Erased(s), Exchange.Read(w))
  {
    hide Absorb, Plain, Finish, CanDrain, Routes, Exchange.Advanced;
    var p, s' := s.peers[w], DoRead(c, s, w);
    var queue := s.channels[p.stage][w];
    PlainHead(queue);
    ErasedPut(s, s', p.stage, w, queue[1..]);
    PlainTail(queue);
  }

  lemma PlainHead(queue: seq<Message>)
    requires queue != []
    ensures Plain(queue)[0] == Exchange.Message(queue[0].round, queue[0].source)
  {
  }

  // What each step does to what a worker holds.

  lemma ActiveMember(c: Setup, v: View, w: nat, i: nat)
    requires Fits(c, v)
    ensures i in ActiveOf(c, v, w) <==> i < |v.prev| && c.pool.owner[i] == w && IsActive(v, i)
    ensures i in ActiveOf(c, v, w) ==> ActiveOf(c, v, w)[i] == v.prev[i]
  {
  }

  lemma ExtractOk(c: Setup, s: Crew, w: nat)
    requires ValidSetup(c) && Shaped(c, s) && Fits(c, ViewOf(s)) && w < c.pool.workers
    requires AllIn(c, ViewOf(s), s.lps, w) && s.locals[w] == FRESH
    ensures SomeOut(c, ViewOf(s), Extract(c, s, w).lps, w)
    ensures LocalOk(c, ViewOf(s), 0, {}, Extract(c, s, w).locals[w], w)
  {
    hide WorkFor, HasStraggler, AnyStraggler;
    var v := ViewOf(s);
    forall i | 0 <= i < |s.lps| && c.pool.owner[i] == w
      ensures Leaves(c, s, w, i) <==> IsActive(v, i)
    {
    }
    assert Extract(c, s, w).locals[w].active == ActiveOf(c, v, w);
  }

  lemma FlagIsDue(c: Setup, v: View, local: Local, w: nat)
    requires ValidSetup(c) && Fits(c, v) && local.active == ActiveOf(c, v, w)
    ensures (exists i :: i in local.active && IsStraggler(c, local.active[i], v.horizon)) <==> HasStraggler(c, v, w)
  {
    hide IsStraggler, IsActive;
    if HasStraggler(c, v, w) {
      var i :| 0 <= i < |v.prev| && c.pool.owner[i] == w && IsActive(v, i) && IsStraggler(c, v.prev[i], v.horizon);
      assert i in local.active;
    }
  }

  lemma RoutesWell(c: Setup, v: View, local: Local, w: nat)
    requires ValidSetup(c) && Fits(c, v) && local.active == ActiveOf(c, v, w) && local.any == AnyStraggler(c, v)
    ensures Routes(c, local, v.horizon)
  {
    hide IsStraggler;
    forall i | i in local.active && IsStraggler(c, local.active[i], v.horizon)
      ensures AnyStraggler(c, v)
    {
      ActiveMember(c, v, w, i);
    }
  }

  lemma WorkIsDue(c: Setup, v: View, local: Local, w: nat, x: nat)
    requires ValidSetup(c) && Fits(c, v) && local.active == ActiveOf(c, v, w) && local.any == AnyStraggler(c, v)
    ensures Content(c, local, v.horizon, 1, x) == Work(WorkFor(c, v, {w}, x))
  {
    hide IsStraggler, AnyStraggler, Destination;
    RoutesWell(c, v, local, w);
    var items := Content(c, local, v.horizon, 1, x).items;
    forall i
      ensures i in items <==> i in WorkFor(c, v, {w}, x)
      ensures i in items ==> items[i] == WorkFor(c, v, {w}, x)[i]
    {
      ActiveMember(c, v, w, i);
    }
    assert items == WorkFor(c, v, {w}, x);
  }

  lemma DoneMember(c: Setup, v: View, w: nat, i: nat)
    requires ValidSetup(c) && Fits(c, v)
    ensures i in DoneBy(c, v, w) <==> i < |v.prev| && IsActive(v, i) && RunnerOf(c, v, i) == w
    ensures i in DoneBy(c, v, w) ==> DoneBy(c, v, w)[i] == After(c, v, i)
  {
    hide RunnerOf, IsActive, After;
  }

  lemma ReturnIsDue(c: Setup, v: View, local: Local, w: nat, x: nat)
    requires ValidSetup(c) && Fits(c, v) && local.done == DoneBy(c, v, w)
    ensures Content(c, local, v.horizon, 2, x) == Return(HomeFor(c, v, {w}, x), MailFor(c, v, {w}, x))
  {
    hide IsActive, RunnerOf, After, DoneBy;
    var payload := Content(c, local, v.horizon, 2, x);
    forall i
      ensures i in payload.states <==> i in HomeFor(c, v, {w}, x)
      ensures i in payload.states ==> payload.states[i] == HomeFor(c, v, {w}, x)[i]
    {
      DoneMember(c, v, w, i);
    }
    forall e
      ensures e in payload.envelopes <==> e in MailFor(c, v, {w}, x)
    {
      EnvelopeIsDue(c, v, local, w, x, e);
    }
    assert payload.states == HomeFor(c, v, {w}, x);
  }

  lemma EnvelopeIsDue(c: Setup, v: View, local: Local, w: nat, x: nat, e: Event)
    requires ValidSetup(c) && Fits(c, v) && local.done == DoneBy(c, v, w)
    ensures e in Content(c, local, v.horizon, 2, x).envelopes <==> e in MailFor(c, v, {w}, x)
  {
    hide IsActive, RunnerOf, After, DoneBy;
    if e in Content(c, local, v.horizon, 2, x).envelopes {
      var i :| i in local.done && e in local.done[i].outbox && e.target < |c.pool.owner| && c.pool.owner[e.target] == x;
      DoneMember(c, v, w, i);
    }
    if e in MailFor(c, v, {w}, x) {
      var i :| 0 <= i < |v.prev| && IsActive(v, i) && RunnerOf(c, v, i) in {w} && e in After(c, v, i).outbox &&
               e.target < |v.prev| && c.pool.owner[e.target] == x;
      DoneMember(c, v, w, i);
    }
  }

  /** A worker sends what is due. */
  lemma ContentIsDue(c: Setup, v: View, t: nat, seen: set<nat>, local: Local, w: nat, x: nat)
    requires ValidSetup(c) && Fits(c, v) && t < 3 && LocalOk(c, v, t, seen, local, w)
    ensures Content(c, local, v.horizon, t, x) == Due(c, v, t, w, x)
  {
    hide ActiveOf, WorkFor, HomeFor, MailFor, DoneBy, HasStraggler, AnyStraggler, CameTwice, RunsAll, IsStraggler, Routes;
    if t == 0 {
      FlagIsDue(c, v, local, w);
    } else if t == 1 {
      WorkIsDue(c, v, local, w, x);
    } else {
      ReturnIsDue(c, v, local, w, x);
    }
  }

  /** A worker that reads what is due holds what is due. */
  lemma AbsorbOk(c: Setup, v: View, t: nat, seen: set<nat>, local: Local, w: nat, source: nat)
    requires ValidSetup(c) && Fits(c, v) && t < 3 && LocalOk(c, v, t, seen, local, w) && source !in seen
    ensures OfStage(Due(c, v, t, source, w), t)
    ensures LocalOk(c, v, t, seen + {source}, Absorb(local, Due(c, v, t, source, w)), w)
  {
    hide ActiveOf, WorkFor, HomeFor, MailFor, DoneBy, HasStraggler, AnyStraggler, RunsAll, CameTwice;
    if t == 1 {
      WorkJoins(c, v, seen, {source}, w);
    } else if t == 2 {
      HomeJoins(c, v, seen, {source}, w);
      MailJoins(c, v, seen, {source}, w);
      Twice(c, v, seen, source, w);
    }
  }

  lemma Twice(c: Setup, v: View, seen: set<nat>, source: nat, w: nat)
    requires ValidSetup(c) && Fits(c, v) && source !in seen
    ensures MailFor(c, v, seen, w) !! MailFor(c, v, {source}, w) || CameTwice(c, v, w)
  {
    hide RunnerOf, IsActive, After;
    if e :| e in MailFor(c, v, seen, w) && e in MailFor(c, v, {source}, w) {
      var i :| 0 <= i < |v.prev| && IsActive(v, i) && RunnerOf(c, v, i) in seen && e in After(c, v, i).outbox &&
               e.target < |v.prev| && c.pool.owner[e.target] == w;
      assert e in MailFor(c, v, {RunnerOf(c, v, i)}, w);
    }
  }

  /** After all flags a worker knows whether there is a straggler anywhere, and can route. */
  lemma FlagsEnd(c: Setup, v: View, local: Local, w: nat)
    requires ValidSetup(c) && Fits(c, v) && LocalOk(c, v, 0, Workers(c), local, w)
    ensures Routes(c, local, v.horizon) && LocalOk(c, v, 1, {}, local, w)
  {
    hide Workers, ActiveOf, HasStraggler, AnyStraggler, Routes;
    FlagsTell(c, v);
    RoutesWell(c, v, local, w);
    assert WorkFor(c, v, {}, w) == map[];
  }

  /** After all work a worker has all its jobs: their drains succeed, or the worker fails. */
  lemma WorkEnds(c: Setup, v: View, local: Local, w: nat)
    requires ValidSetup(c) && Fits(c, v) && LocalOk(c, v, 1, Workers(c), local, w)
    ensures CanDrain(c, local.jobs, v.horizon) <==> RunsAll(c, v, w)
    ensures CanDrain(c, local.jobs, v.horizon) ==>
              LocalOk(c, v, 2, {}, local.(done := DrainJobs(c, local.jobs, v.horizon)), w)
  {
    hide Workers, ActiveOf, AnyStraggler, HasStraggler, RunnerOf, DrainLp, CameTwice;
    forall i | i in local.jobs
      ensures 0 <= i < |v.prev| && IsActive(v, i) && local.jobs[i] == v.prev[i]
    {
    }
    assert HomeFor(c, v, {}, w) == map[] && MailFor(c, v, {}, w) == {};
    if CanDrain(c, local.jobs, v.horizon) {
      assert DrainJobs(c, local.jobs, v.horizon) == DoneBy(c, v, w);
    }
  }

  /** All processes of a worker came home, and its slots take them. */
  lemma HomeFits(c: Setup, s: Crew, w: nat, back: map<nat, Lp>)
    requires ValidSetup(c) && Shaped(c, s) && Fits(c, ViewOf(s)) && SomeOut(c, ViewOf(s), s.lps, w)
    requires back == HomeFor(c, ViewOf(s), Workers(c), w)
    ensures CanRestore(c, s, w, back)
    ensures forall i | 0 <= i < |s.lps| && c.pool.owner[i] == w :: Restored(c, s, w, back)[i] == AfterAll(c, ViewOf(s))[i].lp
  {
    hide RunnerOf, DrainLp, Workers;
    var v := ViewOf(s);
    HomeIsActive(c, v, w);
    forall i: nat
      ensures i in back <==> i < |s.lps| && c.pool.owner[i] == w && IsActive(v, i)
    {
      ActiveMember(c, v, w, i);
      assert i in back.Keys <==> i in ActiveOf(c, v, w).Keys;
    }
  }

  /** What a worker merges makes its processes those after the barrier. */
  lemma MergedIsBarrier(c: Setup, v: View, restored: seq<Lp>, w: nat, i: nat)
    requires ValidSetup(c) && Fits(c, v) && |restored| == |v.prev| && i < |v.prev| && c.pool.owner[i] == w
    requires restored[i] == AfterAll(c, v)[i].lp
    ensures Pool.MergeInto(restored, MailFor(c, v, Workers(c), w))[i] == Merged(AfterAll(c, v), i)
    ensures Merged(AfterAll(c, v), i).pending == restored[i].pending + Pool.To(MailFor(c, v, Workers(c), w), i)
  {
    hide MailFor, Workers, AfterAll, Inbox;
    MailIsInbox(c, v, i);
  }

  ghost predicate IsRestored(c: Setup, v: View, restored: seq<Lp>, w: nat)
    requires Fits(c, v)
  {
    |restored| == |v.prev| && forall i | 0 <= i < |restored| && c.pool.owner[i] == w :: restored[i] == AfterAll(c, v)[i].lp
  }

  lemma MergeTakes(c: Setup, v: View, restored: seq<Lp>, w: nat)
    requires ValidSetup(c) && Fits(c, v) && IsRestored(c, v, restored, w)
    requires Pool.Mergeable(c.pool.owner, restored, w, MailFor(c, v, Workers(c), w), v.horizon)
    ensures TakesAll(c, v, w)
  {
    hide MailFor, Workers, AfterAll, UniqueKeys, Merged, Pool.MergeInto;
    forall i | 0 <= i < |v.prev| && c.pool.owner[i] == w
      ensures UniqueKeys(Merged(AfterAll(c, v), i).pending)
    {
      MergedIsBarrier(c, v, restored, w, i);
    }
  }

  /** The least time a worker reports is that of what it holds after the barrier. */
  lemma HeldIsOwn(c: Setup, v: View, restored: seq<Lp>, w: nat)
    requires ValidSetup(c) && Fits(c, v) && IsRestored(c, v, restored, w)
    ensures var merged := Pool.MergeInto(restored, MailFor(c, v, Workers(c), w));
            && |merged| == |c.pool.owner|
            && (forall i | 0 <= i < |merged| && c.pool.owner[i] == w :: merged[i] == Merged(AfterAll(c, v), i))
            && Pool.OwnPending(c.pool.owner, merged, w) == PoolInvariant.HeldAt(c.pool.owner, AfterAll(c, v), w)
  {
    hide MailFor, Workers, AfterAll, Merged, Pool.MergeInto;
    var merged := Pool.MergeInto(restored, MailFor(c, v, Workers(c), w));
    forall i | 0 <= i < |merged| && c.pool.owner[i] == w
      ensures merged[i] == Merged(AfterAll(c, v), i)
    {
      MergedIsBarrier(c, v, restored, w, i);
    }
  }

  /** Nothing below the horizon is left after a merge. */
  lemma NoneBelow(c: Setup, v: View, w: nat)
    requires ValidSetup(c) && Fits(c, v) && TakesAll(c, v, w)
    requires forall i | 0 <= i < |v.prev| && c.pool.owner[i] == w && IsActive(v, i) :: Runs(c, v, i)
    ensures var minimum := MinTime(PoolInvariant.HeldAt(c.pool.owner, AfterAll(c, v), w));
            minimum.Some? ==> v.horizon <= minimum.value
  {
    hide Workers, MailFor;
    var ds := AfterAll(c, v);
    var held := PoolInvariant.HeldAt(c.pool.owner, ds, w);
    forall e | e in held
      ensures v.horizon <= e.key.time
    {
      var i :| 0 <= i < |ds| && c.pool.owner[i] == w && e in Merged(ds, i).pending;
      MailIsInbox(c, v, i);
      if e in Inbox(ds, i) {
        assert e in MailFor(c, v, Workers(c), w);
      } else {
        KeptAbove(c, v, i, e);
      }
    }
  }

  lemma KeptAbove(c: Setup, v: View, i: nat, e: Event)
    requires Fits(c, v) && i < |v.prev| && (IsActive(v, i) ==> Runs(c, v, i)) && e in After(c, v, i).lp.pending
    ensures v.horizon <= e.key.time
  {
  }

  /** The last step of a worker's round never finds a process that does not fit, an empty slot or an event
      below the horizon; and if it does not fail, every slot holds its own drained process. */
  lemma FinishOk(c: Setup, s: Crew, w: nat, local: Local)
    requires ValidSetup(c) && Shaped(c, s) && Fits(c, ViewOf(s)) && w < c.pool.workers && s.status.Running?
    requires SomeOut(c, ViewOf(s), s.lps, w) && LocalOk(c, ViewOf(s), 2, Workers(c), local, w)
    requires forall i | 0 <= i < |s.lps| && IsActive(ViewOf(s), i) :: Runs(c, ViewOf(s), i)
    requires s.peers[w].round == s.open <= U64_MAX
    ensures !Finish(c, s, w, local).status.Mismatch?
    ensures Finish(c, s, w, local).status.Running? ==>
              var r := Finish(c, s, w, local);
              && AllHome(c, ViewOf(s), r.lps, w) && TakesAll(c, ViewOf(s), w) && s.open < U64_MAX
              && (forall i | 0 <= i < |s.lps| && c.pool.owner[i] != w :: r.lps[i] == s.lps[i])
              && r.locals == s.locals[w := FRESH]
              && r.minima == s.minima[w := MinTime(PoolInvariant.HeldAt(c.pool.owner, AfterAll(c, ViewOf(s)), w))]
  {
    hide HomeFor, MailFor, Workers, AfterAll, Merged, Pool.MergeInto, Pool.Mergeable, TakesAll, RunsAll, DoneBy, CameTwice,
      CanRestore, Restored, Runs, IsActive, MinTime, SomeOut, WorkFor, ActiveOf, AnyStraggler;
    var v := ViewOf(s);
    HomeFits(c, s, w, local.back);
    var restored := Restored(c, s, w, local.back);
    assert IsRestored(c, v, restored, w);
    HeldIsOwn(c, v, restored, w);
    if Pool.Mergeable(c.pool.owner, restored, w, local.inbox, s.horizon) {
      MergeTakes(c, v, restored, w);
      NoneBelow(c, v, w);
    }
  }

  lemma GetWorker(c: Setup, s: Crew, w: nat)
    requires ValidSetup(c) && Steady(c, s) && !s.over && w < c.pool.workers
    ensures WorkerOk(c, ViewOf(s), s.open, s.peers[w], s.locals[w], s.lps, s.minima[w], w)
    ensures Exchange.PeerOk(Wires(c), s.open, s.peers[w])
  {
    assert Exchange.PeerOk(Wires(c), s.open, Erased(s).peers[w]);
  }

  /** A worker that has sent what it ran has run it well. */
  lemma SentSoRan(c: Setup, s: Crew, x: nat, w: nat)
    requires ValidSetup(c) && Steady(c, s) && !s.over && x < c.pool.workers && w < c.pool.workers
    requires Exchange.HasSent(s.peers[x], s.open, 2, w)
    ensures RunsAll(c, ViewOf(s), x)
  {
    hide Steady, RunsAll, AllHome, TakesAll, SomeOut, AllIn;
    GetWorker(c, s, x);
  }

  /** The message a worker is about to read is the one that is due. */
  lemma HeadIsDue(c: Setup, s: Crew, w: nat)
    requires ValidSetup(c) && Steady(c, s) && Enabled(c, s, Exchange.Read(w))
    ensures var p := s.peers[w];
            var m := s.channels[p.stage][w][0];
            && p.round == s.open == m.round && m.source < c.pool.workers && m.source !in p.seen
            && m.payload == Due(c, ViewOf(s), p.stage, m.source, w)
            && Exchange.HasSent(s.peers[m.source], s.open, p.stage, w)
  {
    hide Exchange.Inv, WorkerOk, Due, Exchange.HasSent, Exchange.Due, Confirmed;
    EnabledErased(c, s, Exchange.Read(w));
    var p := s.peers[w];
    var queue := s.channels[p.stage][w];
    PlainHead(queue);
    assert Erased(s).channels[p.stage][w] == Plain(queue);
    Exchange.HeadIsDue(Wires(c), Erased(s), w);
    assert QueueOk(c, ViewOf(s), s.channels[p.stage][w], p.stage, w);
    Exchange.SentByDue(Wires(c), s.open, Erased(s).peers, p.stage, w, queue[0].source);
  }

  lemma SeenWasSent(c: Setup, s: Crew, w: nat, x: nat)
    requires ValidSetup(c) && Steady(c, s) && !s.over && w < c.pool.workers && x in s.peers[w].seen && s.peers[w].round == s.open
    ensures x < c.pool.workers && Exchange.HasSent(s.peers[x], s.open, s.peers[w].stage, w)
  {
    hide WorkerOk, QueueOk, Confirmed, Exchange.ChannelOk;
    GetWorker(c, s, w);
    Exchange.GetChannel(Wires(c), Erased(s), s.peers[w].stage, w);
  }

  /** A worker about to end its round knows that every worker ran its part well. */
  lemma AllRan(c: Setup, s: Crew, w: nat, i: nat)
    requires ValidSetup(c) && Steady(c, s) && Enabled(c, s, Exchange.Read(w)) && s.peers[w].stage == 2
    requires s.peers[w].seen + {s.channels[2][w][0].source} == Workers(c)
    requires IsActive(ViewOf(s), i)
    ensures Runs(c, ViewOf(s), i)
  {
    hide WorkerOk, QueueOk, Exchange.Inv, Confirmed, Decided, Exchange.HasSent, Runs, RunnerOf, AnyStraggler;
    var v := ViewOf(s);
    HeadIsDue(c, s, w);
    RunnerIsWorker(c, v, i);
    var x := RunnerOf(c, v, i);
    if x != s.channels[2][w][0].source {
      assert x in Workers(c);
      SeenWasSent(c, s, w, x);
    }
    SentSoRan(c, s, x, w);
    assert i in WorkFor(c, v, Workers(c), x);
  }

  /** What others do leaves a worker in its place. */
  lemma OtherWorker(c: Setup, v: View, open: nat, p: Exchange.Peer, local: Local, lps: seq<Option<Lp>>, after: seq<Option<Lp>>,
                    minimum: Option<U64>, x: nat)
    requires ValidSetup(c) && Fits(c, v) && |lps| == |after| == |v.prev|
    requires WorkerOk(c, v, open, p, local, lps, minimum, x)
    requires forall i | 0 <= i < |lps| && c.pool.owner[i] == x :: after[i] == lps[i]
    ensures WorkerOk(c, v, open, p, local, after, minimum, x)
  {
    hide LocalOk, RunsAll, TakesAll, AfterAll, Merged, IsActive;
  }

  /** One worker moved, the others did not. */
  ghost predicate OnlyMoved(c: Setup, s: Crew, r: Crew, w: nat)
    requires Shaped(c, s) && w < c.pool.workers
  {
    && SameRound(s, r) && r.status.Running? && |r.peers| == |s.peers| && r.peers == s.peers[w := r.peers[w]]
    && (forall i | 0 <= i < |s.lps| && c.pool.owner[i] != w :: r.lps[i] == s.lps[i])
    && (forall x | 0 <= x < c.pool.workers && x != w :: r.locals[x] == s.locals[x] && r.minima[x] == s.minima[x])
  }

  lemma OnlyMovedKeeps(c: Setup, s: Crew, r: Crew, w: nat)
    requires ValidSetup(c) && Steady(c, s) && !s.over && w < c.pool.workers
    requires |r.peers| == c.pool.workers && OnlyMoved(c, s, r, w)
    requires Exchange.Inv(Wires(c), Erased(r))
    requires Shaped(c, r) && WorkerOk(c, ViewOf(s), s.open, r.peers[w], r.locals[w], r.lps, r.minima[w], w)
    requires forall t, x | 0 <= t < 3 && 0 <= x < c.pool.workers :: QueueOk(c, ViewOf(s), r.channels[t][x], t, x)
    ensures Steady(c, r)
  {
    hide WorkerOk, QueueOk, Exchange.Inv, Confirmed, Decided;
    forall x | 0 <= x < c.pool.workers
      ensures WorkerOk(c, ViewOf(s), s.open, r.peers[x], r.locals[x], r.lps, r.minima[x], x)
    {
      if x != w {
        OtherWorker(c, ViewOf(s), s.open, s.peers[x], s.locals[x], s.lps, r.lps, s.minima[x], x);
      }
    }
  }

  lemma ShapedAgain(c: Setup, r: Crew)
    requires Exchange.Shaped(Wires(c), Erased(r)) && |r.lps| == |r.prev| == |c.pool.owner|
    requires |r.locals| == |r.minima| == c.pool.workers
    ensures Shaped(c, r)
  {
  }

  /** After its first step in a round, a worker holds what it took out of its slots. */
  lemma SendPrepares(c: Setup, s: Crew, w: nat)
    requires ValidSetup(c) && Steady(c, s) && Enabled(c, s, Exchange.Send(w))
    ensures var p := s.peers[w];
            var s1 := if p.stage == 0 && p.sent == 0 then Extract(c, s, w) else s;
            && p.round == s.open && p.seen == {} && SameRound(s, s1) && s1.minima == s.minima && s1.status == s.status
            && SomeOut(c, ViewOf(s), s1.lps, w) && LocalOk(c, ViewOf(s), p.stage, {}, s1.locals[w], w)
            && (forall i | 0 <= i < |s.lps| && c.pool.owner[i] != w :: s1.lps[i] == s.lps[i])
            && (forall x | 0 <= x < c.pool.workers && x != w :: s1.locals[x] == s.locals[x])
  {
    hide Steady, LocalOk, SomeOut, AllIn;
    GetShape(c, s);
    GetWorker(c, s, w);
    if s.peers[w].stage == 0 && s.peers[w].sent == 0 {
      ExtractOk(c, s, w);
    }
  }

  lemma GetShape(c: Setup, s: Crew)
    requires ValidSetup(c) && Steady(c, s)
    ensures Shaped(c, s) && Fits(c, ViewOf(s)) && Confirmed(c, ViewOf(s), s.open)
    ensures !s.over ==> Decided(c, ViewOf(s)) && Exchange.Inv(Wires(c), Erased(s))
  {
  }

  lemma GetQueue(c: Setup, s: Crew, t: nat, x: nat)
    requires ValidSetup(c) && Steady(c, s) && !s.over && t < 3 && x < c.pool.workers
    ensures QueueOk(c, ViewOf(s), s.channels[t][x], t, x)
  {
    hide WorkerOk, QueueOk, Exchange.Inv, Confirmed, Decided;
  }

  lemma SendKeepsExchange(c: Setup, s: Crew, w: nat)
    requires ValidSetup(c) && Steady(c, s) && Enabled(c, s, Exchange.Send(w))
    ensures Exchange.Inv(Wires(c), Erased(DoSend(c, s, w))) && Shaped(c, DoSend(c, s, w))
  {
    hide Steady, Content, Exchange.Inv, Erased;
    GetShape(c, s);
    EnabledErased(c, s, Exchange.Send(w));
    SendErased(c, s, w);
    Exchange.SendKeeps(Wires(c), Erased(s), w);
    ErasedShape(c, DoSend(c, s, w));
    ShapedAgain(c, DoSend(c, s, w));
  }

  lemma SendKeepsQueue(c: Setup, s: Crew, w: nat, t: nat, x: nat)
    requires ValidSetup(c) && Steady(c, s) && Enabled(c, s, Exchange.Send(w)) && t < 3 && x < c.pool.workers
    requires Shaped(c, DoSend(c, s, w))
    ensures QueueOk(c, ViewOf(s), DoSend(c, s, w).channels[t][x], t, x)
  {
    hide Steady, LocalOk, SomeOut, Content, Due, Extract, QueueOk;
    GetShape(c, s);
    GetQueue(c, s, t, x);
    var p, local := s.peers[w], DoSend(c, s, w).locals[w];
    if t == p.stage && x == p.sent {
      SendPrepares(c, s, w);
      ContentIsDue(c, ViewOf(s), t, {}, local, w, x);
      QueueGrows(c, ViewOf(s), s.channels[t][x], Message(p.round, w, Content(c, local, s.horizon, t, x)), t, x);
    }
  }

  lemma SendMoves(c: Setup, s: Crew, w: nat)
    requires ValidSetup(c) && Steady(c, s) && Enabled(c, s, Exchange.Send(w))
    ensures var r := DoSend(c, s, w);
            && OnlyMoved(c, s, r, w) && Fits(c, ViewOf(s)) && |r.lps| == |s.prev|
            && WorkerOk(c, ViewOf(s), s.open, r.peers[w], r.locals[w], r.lps, r.minima[w], w)
  {
    hide Steady, LocalOk, SomeOut, Content, Exchange.Inv, Extract, Confirmed, Decided;
    GetShape(c, s);
    SendPrepares(c, s, w);
  }

  lemma SendKeeps(c: Setup, s: Crew, w: nat)
    requires ValidSetup(c) && Steady(c, s) && Enabled(c, s, Exchange.Send(w))
    ensures Steady(c, DoSend(c, s, w))
  {
    hide Steady, DoSend, Exchange.Inv, QueueOk, WorkerOk, Erased;
    SendKeepsExchange(c, s, w);
    SendMoves(c, s, w);
    GetShape(c, s);
    var r := DoSend(c, s, w);
    forall t, x | 0 <= t < 3 && 0 <= x < c.pool.workers
      ensures QueueOk(c, ViewOf(s), r.channels[t][x], t, x)
    {
      SendKeepsQueue(c, s, w, t, x);
    }
    OnlyMovedKeeps(c, s, r, w);
  }

  lemma ErasedShape(c: Setup, r: Crew)
    requires ValidSetup(c) && Exchange.Inv(Wires(c), Erased(r))
    ensures Exchange.Shaped(Wires(c), Erased(r))
  {
  }

  lemma QueueGrows(c: Setup, v: View, queue: seq<Message>, m: Message, t: nat, x: nat)
    requires ValidSetup(c) && Fits(c, v) && QueueOk(c, v, queue, t, x) && m.payload == Due(c, v, t, m.source, x)
    ensures QueueOk(c, v, queue + [m], t, x)
  {
    hide Due;
  }

  lemma QueueShrinks(c: Setup, v: View, queue: seq<Message>, t: nat, x: nat)
    requires ValidSetup(c) && Fits(c, v) && QueueOk(c, v, queue, t, x) && queue != []
    ensures QueueOk(c, v, queue[1..], t, x)
  {
    hide Due;
  }

  /** The worker and its message, when it has read it. */
  lemma ReadAbsorbs(c: Setup, s: Crew, w: nat)
    requires ValidSetup(c) && Steady(c, s) && Enabled(c, s, Exchange.Read(w))
    ensures var p := s.peers[w];
            var m := s.channels[p.stage][w][0];
            var local := Absorb(s.locals[w], m.payload);
            && Expected(c, p, m) && p.round == s.open && SomeOut(c, ViewOf(s), s.lps, w)
            && LocalOk(c, ViewOf(s), p.stage, p.seen + {m.source}, local, w)
            && (|p.seen + {m.source}| >= c.pool.workers ==> p.seen + {m.source} == Workers(c))
  {
    hide Steady, LocalOk, SomeOut, AllIn, Due, Absorb, Exchange.HasSent;
    GetShape(c, s);
    HeadIsDue(c, s, w);
    GetWorker(c, s, w);
    var p := s.peers[w];
    var m := s.channels[p.stage][w][0];
    AbsorbOk(c, ViewOf(s), p.stage, p.seen, s.locals[w], w, m.source);
    if |p.seen + {m.source}| >= c.pool.workers {
      forall x | 0 <= x < c.pool.workers
        ensures x in p.seen + {m.source}
      {
        Exchange.AllRead(Wires(c), p.seen + {m.source}, x);
      }
    }
  }

  lemma ReadKeepsExchange(c: Setup, s: Crew, w: nat)
    requires ValidSetup(c) && Steady(c, s) && Enabled(c, s, Exchange.Read(w))
    ensures Exchange.Inv(Wires(c), Erased(DoRead(c, s, w))) && Shaped(c, DoRead(c, s, w))
  {
    hide Steady, Absorb, Exchange.Inv, Erased, EndStage, LocalOk, SomeOut, Exchange.Advanced;
    GetShape(c, s);
    ReadAbsorbs(c, s, w);
    EnabledErased(c, s, Exchange.Read(w));
    ReadErased(c, s, w);
    Exchange.ReadKeeps(Wires(c), Erased(s), w);
    ErasedShape(c, DoRead(c, s, w));
    ShapedAgain(c, DoRead(c, s, w));
  }

  lemma ReadKeepsQueue(c: Setup, s: Crew, w: nat, t: nat, x: nat)
    requires ValidSetup(c) && Steady(c, s) && Enabled(c, s, Exchange.Read(w)) && t < 3 && x < c.pool.workers
    requires Shaped(c, DoRead(c, s, w))
    ensures QueueOk(c, ViewOf(s), DoRead(c, s, w).channels[t][x], t, x)
  {
    hide Steady, Absorb, EndStage, Exchange.Advanced, QueueOk;
    GetShape(c, s);
    GetQueue(c, s, t, x);
    if t == s.peers[w].stage && x == w {
      QueueShrinks(c, ViewOf(s), s.channels[t][x], t, x);
    }
  }

  /** The end of a stage: the worker goes on as it should, or fails. */
  lemma EndStageOk(c: Setup, s: Crew, w: nat)
    requires ValidSetup(c) && Steady(c, s) && Enabled(c, s, Exchange.Read(w))
    requires var p := s.peers[w]; |p.seen + {s.channels[p.stage][w][0].source}| >= c.pool.workers
    ensures Shaped(c, s) && Fits(c, ViewOf(s))
    ensures var p := s.peers[w];
            var r := EndStage(c, s, w, Absorb(s.locals[w], s.channels[p.stage][w][0].payload), p.stage);
            && !r.status.Mismatch?
            && (r.status.Running? ==>
                  && (forall i | 0 <= i < |s.lps| && c.pool.owner[i] != w :: r.lps[i] == s.lps[i])
                  && (forall x | 0 <= x < c.pool.workers && x != w :: r.locals[x] == s.locals[x] && r.minima[x] == s.minima[x])
                  && WorkerOk(c, ViewOf(s), s.open, Exchange.Advanced(Wires(c), p, p.seen + {s.channels[p.stage][w][0].source}),
                              r.locals[w], r.lps, r.minima[w], w))
  {
    hide Steady, LocalOk, SomeOut, Absorb, AllHome, TakesAll, RunsAll, Finish, CanDrain, Routes, DrainJobs, AfterAll, AllIn,
      Confirmed, Decided, Exchange.Inv;
    GetShape(c, s);
    ReadAbsorbs(c, s, w);
    var v, p := ViewOf(s), s.peers[w];
    var local := Absorb(s.locals[w], s.channels[p.stage][w][0].payload);
    if p.stage == 0 {
      FlagsEnd(c, v, local, w);
    } else if p.stage == 1 {
      WorkEnds(c, v, local, w);
    } else {
      LastStageOk(c, s, w, local);
    }
  }

  lemma LastStageOk(c: Setup, s: Crew, w: nat, local: Local)
    requires ValidSetup(c) && Steady(c, s) && Enabled(c, s, Exchange.Read(w)) && s.peers[w].stage == 2
    requires s.peers[w].seen + {s.channels[2][w][0].source} == Workers(c) && s.peers[w].round == s.open
    requires LocalOk(c, ViewOf(s), 2, Workers(c), local, w) && SomeOut(c, ViewOf(s), s.lps, w)
    ensures var r := Finish(c, s, w, local);
            && !r.status.Mismatch?
            && (r.status.Running? ==>
                  && (forall i | 0 <= i < |s.lps| && c.pool.owner[i] != w :: r.lps[i] == s.lps[i])
                  && (forall x | 0 <= x < c.pool.workers && x != w :: r.locals[x] == s.locals[x] && r.minima[x] == s.minima[x])
                  && WorkerOk(c, ViewOf(s), s.open, Exchange.Peer(s.open + 1, 0, 0, {}), r.locals[w], r.lps, r.minima[w], w))
  {
    hide Steady, SomeOut, AllHome, TakesAll, RunsAll, Finish, AfterAll, AllIn, Decided, Exchange.Inv, Runs, IsActive,
      DoneBy, HomeFor, MailFor, WorkFor, CameTwice, AnyStraggler, ActiveOf;
    GetShape(c, s);
    forall i | 0 <= i < |s.lps| && IsActive(ViewOf(s), i)
      ensures Runs(c, ViewOf(s), i)
    {
      AllRan(c, s, w, i);
    }
    FinishOk(c, s, w, local);
  }

  lemma ReadMoves(c: Setup, s: Crew, w: nat)
    requires ValidSetup(c) && Steady(c, s) && Enabled(c, s, Exchange.Read(w))
    ensures !DoRead(c, s, w).status.Mismatch?
    ensures DoRead(c, s, w).status.Running? ==>
              var r := DoRead(c, s, w);
              && OnlyMoved(c, s, r, w) && Fits(c, ViewOf(s)) && |r.lps| == |s.prev|
              && WorkerOk(c, ViewOf(s), s.open, r.peers[w], r.locals[w], r.lps, r.minima[w], w)
  {
    hide Steady, LocalOk, SomeOut, Absorb, EndStage, Confirmed, Decided, Exchange.Inv, AllHome, AllIn;
    GetShape(c, s);
    ReadAbsorbs(c, s, w);
    var p := s.peers[w];
    var seen := p.seen + {s.channels[p.stage][w][0].source};
    if |seen| >= c.pool.workers {
      EndStageOk(c, s, w);
    }
  }

  lemma ReadKeeps(c: Setup, s: Crew, w: nat)
    requires ValidSetup(c) && Steady(c, s) && Enabled(c, s, Exchange.Read(w))
    ensures Inv(c, DoRead(c, s, w))
  {
    hide Steady, DoRead, Exchange.Inv, QueueOk, WorkerOk, Erased;
    GetShape(c, s);
    ReadMoves(c, s, w);
    ReadKeepsExchange(c, s, w);
    var r := DoRead(c, s, w);
    if r.status.Running? {
      forall t, x | 0 <= t < 3 && 0 <= x < c.pool.workers
        ensures QueueOk(c, ViewOf(s), r.channels[t][x], t, x)
      {
        ReadKeepsQueue(c, s, w, t, x);
      }
      OnlyMovedKeeps(c, s, r, w);
    }
  }

  /** At the start of a round nothing is under way. */
  lemma NothingSent(c: Setup, s: Crew, t: nat, x: nat)
    requires ValidSetup(c) && Shaped(c, s) && Exchange.Inv(Wires(c), Erased(s)) && t < 3 && x < c.pool.workers
    requires forall w | 0 <= w < c.pool.workers :: s.peers[w] == Exchange.Peer(s.open, 0, 0, {})
    ensures s.channels[t][x] == []
  {
    Exchange.GetChannel(Wires(c), Erased(s), t, x);
    var queue := Erased(s).channels[t][x];
    assert Exchange.Due(Wires(c), s.open, s.peers, t, x) == {};
    assert queue == Plain(s.channels[t][x]);
    assert |queue| == |multiset(queue)| == 0;
  }

  /** Between rounds: all processes are home, as the barrier after `ds` left them, and all minima are true. */
  ghost predicate Between(c: Setup, s: Crew, ds: Round)
    requires ValidSetup(c)
  {
    && Shaped(c, s) && s.status.Running? && !s.over && Fits(c, ViewOf(s)) && Confirmed(c, ViewOf(s), s.open)
    && Exchange.Inv(Wires(c), Erased(s)) && |ds| == |c.pool.owner| && s.prev == Barrier(ds)
    && (forall i | 0 <= i < |s.lps| :: s.lps[i] == Some(s.prev[i]))
    && (forall w | 0 <= w < c.pool.workers ::
          && s.peers[w] == Exchange.Peer(s.open, 0, 0, {}) && s.locals[w] == FRESH
          && s.minima[w] == MinTime(PoolInvariant.HeldAt(c.pool.owner, ds, w)))
  }

  lemma DecideKeeps(c: Setup, s: Crew, ds: Round)
    requires ValidSetup(c) && Between(c, s, ds)
    ensures Steady(c, Decide(c, s)) && Decide(c, s).status.Running?
  {
    hide RunRounds, Horizon, Exchange.Inv, Barrier, MinTime, PoolInvariant.HeldAt, Frontier, Pool.LeastOf;
    PoolLemmas.LeastIsFrontier(c.pool, ds, s.minima);
    var r := Decide(c, s);
    forall t, x | 0 <= t < 3 && 0 <= x < c.pool.workers
      ensures QueueOk(c, ViewOf(r), r.channels[t][x], t, x)
    {
      NothingSent(c, s, t, x);
    }
    assert Erased(r) == Erased(s);
  }

  /** When all workers have reported, the round was that of the executor, and all minima are true. */
  lemma OpenBetween(c: Setup, s: Crew, r: Crew)
    requires ValidSetup(c) && Steady(c, s) && Enabled(c, s, Exchange.Open)
    requires r == s.(open := s.open + 1, prev := Barrier(AfterAll(c, ViewOf(s))))
    ensures Between(c, r, AfterAll(c, ViewOf(s)))
    ensures forall i | 0 <= i < |s.lps| :: s.lps[i].Some? && s.lps[i].value == r.prev[i]
  {
    hide Steady, RunsAll, TakesAll, AfterAll, Decided, Exchange.Inv, MinTime, PoolInvariant.HeldAt, Merged, Erased, Confirmed;
    GetShape(c, s);
    forall w | 0 <= w < c.pool.workers
      ensures AllHome(c, ViewOf(s), s.lps, w) && RunsAll(c, ViewOf(s), w) && TakesAll(c, ViewOf(s), w) && s.open < U64_MAX
      ensures s.peers[w] == Exchange.Peer(s.open + 1, 0, 0, {}) && s.locals[w] == FRESH
      ensures s.minima[w] == MinTime(PoolInvariant.HeldAt(c.pool.owner, AfterAll(c, ViewOf(s)), w))
    {
      GetWorker(c, s, w);
    }
    assert s.open < U64_MAX by {
      assert AllHome(c, ViewOf(s), s.lps, 0);
    }
    RoundIsExecutors(c, ViewOf(s));
    RoundConfirmed(c, s, r);
    forall i | 0 <= i < |s.lps|
      ensures s.lps[i] == Some(r.prev[i])
    {
      assert AllHome(c, ViewOf(s), s.lps, c.pool.owner[i]);
    }
    EnabledErased(c, s, Exchange.Open);
    Exchange.OpenKeeps(Wires(c), Erased(s));
    OpenErased(c, s, r);
  }

  lemma OpenErased(c: Setup, s: Crew, r: Crew)
    requires ValidSetup(c) && Shaped(c, s) && Enabled(c, s, Exchange.Open) && r.channels == s.channels
    requires r.open == s.open + 1 && r.peers == s.peers
    requires Exchange.Shaped(Wires(c), Erased(s)) && Exchange.Enabled(Wires(c), Erased(s), Exchange.Open)
    ensures Erased(r) == Exchange.Act(Wires(c), Erased(s), Exchange.Open)
  {
  }

  lemma RoundConfirmed(c: Setup, s: Crew, r: Crew)
    requires ValidSetup(c) && Fits(c, ViewOf(s)) && Confirmed(c, ViewOf(s), s.open) && Decided(c, ViewOf(s)) && s.open < U64_MAX
    requires RunRound(c.pool.m, s.prev, s.horizon, c.pool.plan.capacity) == Some(r.prev) && r.open == s.open + 1
    ensures Fits(c, ViewOf(r)) && Confirmed(c, ViewOf(r), r.open)
  {
    hide Ended, Frontier, Horizon, RunRound;
  }

  /** When every process is home, the next round starts from them. */
  lemma OpenIsDecide(c: Setup, s: Crew, r: Crew)
    requires Shaped(c, s) && r == s.(open := s.open + 1, prev := r.prev) && |r.prev| == |s.lps|
    requires forall i | 0 <= i < |s.lps| :: s.lps[i].Some? && s.lps[i].value == r.prev[i]
    ensures DoOpen(c, s) == Decide(c, r)
  {
    hide Decide;
    assert Found(s.lps, s.prev) == r.prev;
  }

  lemma OpenKeeps(c: Setup, s: Crew)
    requires ValidSetup(c) && Steady(c, s) && Enabled(c, s, Exchange.Open)
    ensures Steady(c, DoOpen(c, s)) && DoOpen(c, s).status.Running?
  {
    hide Steady, AfterAll, Barrier, Decide, DoOpen, Between, Confirmed, Decided, Exchange.Inv, WellKeyed, Erased;
    GetShape(c, s);
    var ds := AfterAll(c, ViewOf(s));
    BarrierSize(ds);
    var r := s.(open := s.open + 1, prev := Barrier(ds));
    OpenBetween(c, s, r);
    DecideKeeps(c, r, ds);
    OpenIsDecide(c, s, r);
  }

  lemma BarrierSize(ds: Round)
    ensures |Barrier(ds)| == |ds|
  {
  }
}

