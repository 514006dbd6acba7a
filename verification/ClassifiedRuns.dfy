/** What every run of the classified pool keeps, whatever the interleaving. */
module ClassifiedRuns {
  import opened Events
  import opened LogicalProcess
  import opened Rounds
  import opened Executor
  import opened ClassifiedRound
  import opened ClassifiedPool
  import opened ClassifiedSteps
  import Pool = PoolState
  import PoolInvariant
  import PoolRuns
  import Classified
  import Exchange

  ghost function Run(c: Setup, actions: seq<Action>): Option<Crew>
    requires ValidSetup(c)
  {
    if actions == [] then Some(Initial(c))
    else
      var a := actions[|actions| - 1];
      match Run(c, actions[..|actions| - 1])
      case None => None
      case Some(s) => if Shaped(c, s) && Enabled(c, s, a) then Some(Act(c, s, a)) else None
  }

  lemma StartHeld(c: Setup, w: nat)
    requires ValidSetup(c)
    ensures Barrier(Start(c.pool.config)) == c.pool.config
    ensures PoolInvariant.HeldAt(c.pool.owner, Start(c.pool.config), w) == Pool.OwnPending(c.pool.owner, c.pool.config, w)
  {
    hide Merged;
    forall i | 0 <= i < |c.pool.config|
      ensures Merged(Start(c.pool.config), i) == c.pool.config[i]
    {
      PoolRuns.NothingAtStart(c.pool, i);
    }
  }

  lemma ReadyErased(c: Setup)
    requires ValidSetup(c)
    ensures Erased(Ready(c)) == Exchange.Initial(Wires(c))
  {
    var plain, initial := Erased(Ready(c)).channels, Exchange.Initial(Wires(c)).channels;
    forall t | 0 <= t < 3
      ensures plain[t] == initial[t]
    {
      forall x | 0 <= x < c.pool.workers
        ensures plain[t][x] == initial[t][x]
      {
        assert Ready(c).channels[t][x] == [];
      }
    }
  }

  lemma InitialInv(c: Setup)
    requires ValidSetup(c)
    ensures Inv(c, Initial(c)) && Initial(c).prev == c.pool.config
  {
    hide MinTime, Barrier, RunRounds, Pool.OwnPending, PoolInvariant.HeldAt, Exchange.Inv, Decide, Steady;
    var n, s := c.pool.workers, Ready(c);
    Exchange.InitialInv(Wires(c));
    ReadyErased(c);
    StartHeld(c, 0);
    forall w | 0 <= w < n
      ensures s.minima[w] == MinTime(PoolInvariant.HeldAt(c.pool.owner, Start(c.pool.config), w))
    {
      StartHeld(c, w);
    }
    DecideKeeps(c, s, Start(c.pool.config));
    DecideKeepsPrev(c, s);
  }

  lemma DecideKeepsPrev(c: Setup, s: Crew)
    ensures Decide(c, s).prev == s.prev
  {
  }

  lemma ActKeeps(c: Setup, s: Crew, a: Action)
    requires ValidSetup(c) && Inv(c, s) && Shaped(c, s) && Enabled(c, s, a)
    ensures Inv(c, Act(c, s, a))
  {
    hide Steady, Shaped, DoSend, DoRead, DoOpen;
    match a
    case Send(w) =>
      SendKeeps(c, s, w);
      SendMoves(c, s, w);
    case Read(w) => ReadKeeps(c, s, w);
    case Open => OpenKeeps(c, s);
  }

  /** In no run of the classified pool does a worker read a message of another round or a second one from
      the same worker, divide by zero dedicated workers, find a process that is not its own, a slot
      taken or empty, or keep an event below the horizon. */
  lemma {:induction false} RunsKeepInvariant(c: Setup, actions: seq<Action>)
    requires ValidSetup(c) && Run(c, actions).Some?
    ensures Inv(c, Run(c, actions).value) && !Run(c, actions).value.status.Mismatch?
  {
    hide Steady, Shaped, Act, Initial, Enabled;
    if actions == [] {
      InitialInv(c);
    } else {
      RunsKeepInvariant(c, actions[..|actions| - 1]);
      ActKeeps(c, Run(c, actions[..|actions| - 1]).value, actions[|actions| - 1]);
    }
  }

  /** The pool is in the middle of a round and worker `w` has not completed it. */
  ghost predicate InRound(c: Setup, s: Crew, w: nat) {
    s.status.Running? && !s.over && w < |s.peers| == c.pool.workers && s.peers[w].round == s.open
  }

  lemma GetLocal(c: Setup, actions: seq<Action>, w: nat)
    requires ValidSetup(c) && Run(c, actions).Some? && InRound(c, Run(c, actions).value, w)
    requires Run(c, actions).value.peers[w].stage > 0
    ensures var s := Run(c, actions).value;
            && Shaped(c, s) && Fits(c, ViewOf(s)) && s.peers[w].stage < 3
            && LocalOk(c, ViewOf(s), s.peers[w].stage, s.peers[w].seen, s.locals[w], w)
            && SomeOut(c, ViewOf(s), s.lps, w)
  {
    hide Steady, LocalOk, SomeOut;
    RunsKeepInvariant(c, actions);
    GetShape(c, Run(c, actions).value);
    GetWorker(c, Run(c, actions).value, w);
  }

  /** Past the first exchange every worker knows whether any worker has a straggler: so all set aside the
      same number of workers, and none would divide by zero. */
  lemma SameDedicated(c: Setup, actions: seq<Action>, w: nat)
    requires ValidSetup(c) && Run(c, actions).Some? && InRound(c, Run(c, actions).value, w)
    requires Run(c, actions).value.peers[w].stage > 0
    ensures var s := Run(c, actions).value;
            && (s.locals[w].any <==> AnyStraggler(c, ViewOf(s)))
            && Routes(c, s.locals[w], s.horizon)
  {
    hide Run, AnyStraggler, WorkFor, HomeFor, MailFor, DoneBy, RunsAll, CameTwice, SomeOut, Routes, ActiveOf;
    GetLocal(c, actions, w);
    var s := Run(c, actions).value;
    RoutesWell(c, ViewOf(s), s.locals[w], w);
  }

  /** Past the second exchange worker `w` holds exactly the active processes routed to it, as the round
      found them, whoever they belong to. */
  lemma EachRunsOnce(c: Setup, actions: seq<Action>, w: nat, i: nat)
    requires ValidSetup(c) && Run(c, actions).Some? && InRound(c, Run(c, actions).value, w)
    requires Run(c, actions).value.peers[w].stage > 1
    ensures var s := Run(c, actions).value;
            && (i in s.locals[w].jobs <==> Fits(c, ViewOf(s)) && IsActive(ViewOf(s), i) && RunnerOf(c, ViewOf(s), i) == w)
            && (i in s.locals[w].jobs ==> s.locals[w].jobs[i] == s.prev[i])
  {
    hide Run, AnyStraggler, HomeFor, MailFor, DoneBy, RunsAll, CameTwice, SomeOut, ActiveOf, RunnerOf;
    GetLocal(c, actions, w);
    var s := Run(c, actions).value;
    if IsActive(ViewOf(s), i) {
      AllRunAndComeHome(c, ViewOf(s), i);
    }
  }

  lemma JobIsRouted(c: Setup, v: View, from: set<nat>, w: nat, i: nat)
    requires ValidSetup(c) && Fits(c, v) && i in WorkFor(c, v, from, w)
    ensures IsActive(v, i) && RunnerOf(c, v, i) == w && WorkFor(c, v, from, w)[i] == v.prev[i]
  {
    hide RunnerOf;
  }

  lemma RunnerTells(c: Setup, v: View, i: nat)
    requires ValidSetup(c) && Fits(c, v) && IsActive(v, i) && c.pool.workers > 1
    ensures IsStraggler(c, v.prev[i], v.horizon) <==>
            RunnerOf(c, v, i) < Classified.Dedicated(c.pool.workers, c.configured, AnyStraggler(c, v))
  {
    hide IsStraggler;
    var heavy, any := IsStraggler(c, v.prev[i], v.horizon), AnyStraggler(c, v);
    assert heavy ==> any;
    Classified.RouteIsRight(c.pool.workers, c.configured, Classified.Dedicated(c.pool.workers, c.configured, any), any,
                            Classified.Item(i, c.pool.owner[i], heavy));
  }

  /** With two workers or more, none ever gets both stragglers and bulk: the dedicated workers, the same for
      all, get the stragglers and nothing else. */
  lemma KindsStayApart(c: Setup, actions: seq<Action>, w: nat, i: nat)
    requires ValidSetup(c) && Run(c, actions).Some? && InRound(c, Run(c, actions).value, w) && c.pool.workers > 1
    requires Run(c, actions).value.peers[w].stage > 0 && i in Run(c, actions).value.locals[w].jobs
    ensures var s := Run(c, actions).value;
            IsStraggler(c, s.locals[w].jobs[i], s.horizon) <==>
            w < Classified.Dedicated(c.pool.workers, c.configured, AnyStraggler(c, ViewOf(s)))
  {
    hide Run, AnyStraggler, HomeFor, MailFor, DoneBy, RunsAll, CameTwice, SomeOut, ActiveOf, RunnerOf, WorkFor, IsStraggler;
    GetLocal(c, actions, w);
    var s := Run(c, actions).value;
    JobIsRouted(c, ViewOf(s), if s.peers[w].stage == 1 then s.peers[w].seen else Workers(c), w, i);
    RunnerTells(c, ViewOf(s), i);
  }

  /** The step in which a worker completes its round: it has got back exactly the processes it took out,
      each slot then holds its own process, drained, with all events sent to it, and the least time it
      reports is true. Only then does its round advance. */
  lemma AllComeHome(c: Setup, actions: seq<Action>, w: nat)
    requires ValidSetup(c) && Run(c, actions).Some? && InRound(c, Run(c, actions).value, w)
    requires Run(c, actions + [Exchange.Read(w)]).Some?
    requires var r := Run(c, actions + [Exchange.Read(w)]).value;
             r.status.Running? && w < |r.peers| && r.peers[w].round != r.open
    ensures var s := Run(c, actions).value;
            var r := Run(c, actions + [Exchange.Read(w)]).value;
            && s.peers[w].stage == 2 && Shaped(c, s) && Shaped(c, r) && Fits(c, ViewOf(s))
            && s.channels[2][w] != [] && s.channels[2][w][0].payload.Return?
            && (s.locals[w].back + s.channels[2][w][0].payload.states).Keys == s.locals[w].active.Keys
            && AllHome(c, ViewOf(s), r.lps, w)
            && r.minima[w] == MinTime(PoolInvariant.HeldAt(c.pool.owner, AfterAll(c, ViewOf(s)), w))
  {
    hide Steady, LocalOk, Absorb, EndStage, AllHome, AfterAll, RunsAll, TakesAll, PoolInvariant.HeldAt, MinTime, Due, SomeOut;
    var s := Run(c, actions).value;
    assert (actions + [Exchange.Read(w)])[..|actions|] == actions;
    RunsKeepInvariant(c, actions);
    GetShape(c, s);
    ReadMoves(c, s, w);
    ReadKeepsExchange(c, s, w);
    HeadIsDue(c, s, w);
    BackIsActive(c, s, w);
  }

  lemma BackIsActive(c: Setup, s: Crew, w: nat)
    requires ValidSetup(c) && Steady(c, s) && Enabled(c, s, Exchange.Read(w)) && s.peers[w].stage == 2
    requires |s.peers[w].seen + {s.channels[2][w][0].source}| >= c.pool.workers
    ensures s.channels[2][w][0].payload.Return?
    ensures (s.locals[w].back + s.channels[2][w][0].payload.states).Keys == s.locals[w].active.Keys
  {
    hide Steady, HomeFor, MailFor, ActiveOf, Workers, RunsAll, DoneBy, AnyStraggler, CameTwice, SomeOut, WorkFor;
    GetShape(c, s);
    ReadAbsorbs(c, s, w);
    HomeIsActive(c, ViewOf(s), w);
  }

  /** A run that ends is a run of the executor: the classified pool computes what the rounds compute. */
  lemma PoolIsExecutor(c: Setup, actions: seq<Action>)
    requires ValidSetup(c) && Run(c, actions).Some?
    requires Run(c, actions).value.status.Running? && Run(c, actions).value.over
    ensures var s := Run(c, actions).value;
            && |s.lps| == |s.prev| && (forall i | 0 <= i < |s.lps| :: s.lps[i] == Some(s.prev[i]))
            && RunRounds(c.pool.m, c.pool.config, c.pool.plan, U64_MAX) == Some(s.prev)
  {
    RunsKeepInvariant(c, actions);
    var s := Run(c, actions).value;
    PoolRuns.EndedRun(c.pool.m, s.prev, c.pool.plan, U64_MAX - s.open);
  }

  lemma PoolIsSerial(c: Setup, actions: seq<Action>)
    requires ValidSetup(c) && Numbers(c.pool.m) && GoodConfig(c.pool.m, c.pool.config)
    requires Run(c, actions).Some? && Run(c, actions).value.status.Running? && Run(c, actions).value.over
    ensures exists n :: EndsSerially(c.pool.m, c.pool.config, c.pool.plan.runEnd, n, Run(c, actions).value.prev)
  {
    hide Run, RunRounds, EndsSerially, Numbers, GoodConfig;
    PoolIsExecutor(c, actions);
    RoundsAreSerial(c.pool.m, c.pool.config, c.pool.plan, U64_MAX, Run(c, actions).value.prev);
  }

  /** The pool is never stuck: until it is over or has failed, some step can be taken. */
  lemma NeverStuck(c: Setup, actions: seq<Action>) returns (a: Action)
    requires ValidSetup(c) && Run(c, actions).Some?
    requires Run(c, actions).value.status.Running? && !Run(c, actions).value.over
    ensures Run(c, actions + [a]).Some?
  {
    hide Steady, Exchange.Inv;
    RunsKeepInvariant(c, actions);
    var s := Run(c, actions).value;
    GetShape(c, s);
    a := Exchange.SomeStep(Wires(c), Erased(s));
    EnabledAgain(c, s, a);
    assert (actions + [a])[..|actions|] == actions;
  }

  lemma EnabledAgain(c: Setup, s: Crew, a: Action)
    requires ValidSetup(c) && Shaped(c, s) && s.status.Running? && !s.over
    requires Exchange.Shaped(Wires(c), Erased(s)) && Exchange.Enabled(Wires(c), Erased(s), a)
    ensures Enabled(c, s, a)
  {
    if a.Read? {
      assert Erased(s).channels[s.peers[a.w].stage][a.w] == Plain(s.channels[s.peers[a.w].stage][a.w]);
    }
  }

  // A failure is a failure of the executor.

  /** If the round of the executor fails, or the round number is at its end, so does the executor's run. */
  lemma ExecutorFails(c: Setup, s: Crew)
    requires ValidSetup(c) && Fits(c, ViewOf(s)) && Confirmed(c, ViewOf(s), s.open) && Decided(c, ViewOf(s))
    requires s.open == U64_MAX || RunRound(c.pool.m, s.prev, s.horizon, c.pool.plan.capacity).None?
    ensures RunRounds(c.pool.m, c.pool.config, c.pool.plan, U64_MAX) == None
  {
    hide Ended, Frontier, Horizon, RunRound;
  }

  /** A round of the executor that succeeds runs every process well, and ends as the classified round would. */
  lemma ExecutorRuns(c: Setup, v: View, ds: Round)
    requires ValidSetup(c) && Fits(c, v) && DrainAll(c.pool.m, v.prev, v.horizon, c.pool.plan.capacity) == Some(ds)
    requires Accepts(ds, v.horizon)
    ensures ds == AfterAll(c, v) && forall x | 0 <= x < c.pool.workers :: RunsAll(c, v, x)
  {
    hide RunnerOf, DrainLp, SendsAbove, Merged;
    forall i | 0 <= i < |v.prev|
      ensures ds[i] == After(c, v, i) && Runs(c, v, i)
    {
      if !IsActive(v, i) {
        IdleRuns(c, v, i);
      }
    }
  }

  /** Events of a good round come once, and fit where they go. */
  lemma GoodRoundFits(c: Setup, v: View, w: nat, restored: seq<Lp>)
    requires ValidSetup(c) && Fits(c, v) && Good(c.pool.m, AfterAll(c, v)) && Accepts(AfterAll(c, v), v.horizon)
    requires IsRestored(c, v, restored, w)
    ensures !CameTwice(c, v, w)
    ensures Pool.Mergeable(c.pool.owner, restored, w, MailFor(c, v, Workers(c), w), v.horizon)
  {
    hide RunnerOf, DrainLp, Workers, UniqueKeys, Merged, Pool.MergeInto, Inbox;
    var ds := AfterAll(c, v);
    NotTwice(c, v, w);
    forall e | e in MailFor(c, v, Workers(c), w)
      ensures e.target < |c.pool.owner| && c.pool.owner[e.target] == w && v.horizon <= e.key.time
    {
      var i :| 0 <= i < |v.prev| && IsActive(v, i) && e in After(c, v, i).outbox && e.target < |v.prev| && c.pool.owner[e.target] == w;
      assert e in ds[i].outbox;
    }
    forall i | 0 <= i < |restored| && c.pool.owner[i] == w
      ensures UniqueKeys(restored[i].pending + Pool.To(MailFor(c, v, Workers(c), w), i))
      ensures restored[i].pending !! Pool.To(MailFor(c, v, Workers(c), w), i)
    {
      MergedIsBarrier(c, v, restored, w, i);
      NotHeld(c, v, i);
    }
  }

  lemma NotHeld(c: Setup, v: View, i: nat)
    requires ValidSetup(c) && Fits(c, v) && Good(c.pool.m, AfterAll(c, v)) && i < |v.prev|
    ensures AfterAll(c, v)[i].lp.pending !! Pool.To(MailFor(c, v, Workers(c), c.pool.owner[i]), i)
  {
    hide RunnerOf, After, MailFor, Workers;
    var ds := AfterAll(c, v);
    MailIsInbox(c, v, i);
    forall e, j | e in ds[i].lp.pending && 0 <= j < |ds|
      ensures e !in ds[j].outbox
    {
      assert e in Held(ds[i]) && SameKey(e, e);
      assert e in ds[j].outbox ==> e in Held(ds[j]);
    }
  }

  lemma SameSender(c: Setup, v: View, w: nat, x: nat, y: nat, e: Event)
    requires ValidSetup(c) && Fits(c, v) && Good(c.pool.m, AfterAll(c, v))
    requires e in MailFor(c, v, {x}, w) && e in MailFor(c, v, {y}, w)
    ensures x == y
  {
    hide RunnerOf, After;
    var ds := AfterAll(c, v);
    var i :| 0 <= i < |v.prev| && IsActive(v, i) && RunnerOf(c, v, i) in {x} && e in After(c, v, i).outbox;
    var j :| 0 <= j < |v.prev| && IsActive(v, j) && RunnerOf(c, v, j) in {y} && e in After(c, v, j).outbox;
    assert e in Held(ds[i]) && e in Held(ds[j]) && SameKey(e, e);
  }

  lemma NotTwice(c: Setup, v: View, w: nat)
    requires ValidSetup(c) && Fits(c, v) && Good(c.pool.m, AfterAll(c, v))
    ensures !CameTwice(c, v, w)
  {
    hide MailFor;
    forall x, y, e | e in MailFor(c, v, {x}, w) && e in MailFor(c, v, {y}, w)
      ensures x == y
    {
      SameSender(c, v, w, x, y, e);
    }
  }

  /** The drains of a good configuration leave a good round. */
  lemma DrainsAreGood(c: Setup, v: View, ds: Round)
    requires Numbers(c.pool.m) && GoodConfig(c.pool.m, v.prev) && Accepts(ds, v.horizon)
    requires DrainAll(c.pool.m, v.prev, v.horizon, c.pool.plan.capacity) == Some(ds)
    ensures Good(c.pool.m, ds)
  {
    var n := DrainsRunSerially(c.pool.m, Start(v.prev), v.horizon, c.pool.plan.capacity, seq(|v.prev|, _ => U64_MAX), ds);
  }

  /** A worker that fails as it completes its round shows that the executor fails. */
  lemma FinishAborts(c: Setup, s: Crew, w: nat, local: Local)
    requires ValidSetup(c) && Shaped(c, s) && Fits(c, ViewOf(s)) && w < c.pool.workers && s.status.Running?
    requires SomeOut(c, ViewOf(s), s.lps, w) && LocalOk(c, ViewOf(s), 2, Workers(c), local, w)
    requires Numbers(c.pool.m) && GoodConfig(c.pool.m, s.prev) && s.peers[w].round == s.open
    requires Finish(c, s, w, local).status.Aborted?
    ensures s.open == U64_MAX || RunRound(c.pool.m, s.prev, s.horizon, c.pool.plan.capacity).None?
  {
    hide HomeFor, MailFor, Workers, AfterAll, Pool.MergeInto, Pool.Mergeable, RunsAll, DoneBy, CameTwice, CanRestore, Restored,
      MinTime, SomeOut, WorkFor, ActiveOf, AnyStraggler, DrainAll, Accepts, Numbers, GoodConfig, Good;
    var v := ViewOf(s);
    HomeFits(c, s, w, local.back);
    var restored := Restored(c, s, w, local.back);
    assert IsRestored(c, v, restored, w);
    var ds := DrainAll(c.pool.m, s.prev, s.horizon, c.pool.plan.capacity);
    if ds.Some? && Accepts(ds.value, s.horizon) {
      ExecutorRuns(c, v, ds.value);
      DrainsAreGood(c, v, ds.value);
      GoodRoundFits(c, v, w, restored);
    }
  }

  /** A worker that fails as it drains its jobs shows that the executor fails. */
  lemma DrainAborts(c: Setup, v: View, local: Local, w: nat)
    requires ValidSetup(c) && Fits(c, v) && LocalOk(c, v, 1, Workers(c), local, w) && w < c.pool.workers
    requires !CanDrain(c, local.jobs, v.horizon)
    ensures RunRound(c.pool.m, v.prev, v.horizon, c.pool.plan.capacity).None?
  {
    hide LocalOk, Workers, AfterAll, RunsAll, DrainAll, Accepts, CanDrain;
    WorkEnds(c, v, local, w);
    var ds := DrainAll(c.pool.m, v.prev, v.horizon, c.pool.plan.capacity);
    if ds.Some? && Accepts(ds.value, v.horizon) {
      ExecutorRuns(c, v, ds.value);
    }
  }

  lemma ReadAborts(c: Setup, s: Crew, w: nat)
    requires ValidSetup(c) && Steady(c, s) && Enabled(c, s, Exchange.Read(w))
    requires Numbers(c.pool.m) && GoodConfig(c.pool.m, s.prev) && DoRead(c, s, w).status.Aborted?
    ensures RunRounds(c.pool.m, c.pool.config, c.pool.plan, U64_MAX) == None
  {
    hide Steady, LocalOk, SomeOut, Absorb, Confirmed, Decided, Exchange.Inv, Finish, CanDrain, Routes, RunRound, RunRounds, Numbers,
      GoodConfig;
    GetShape(c, s);
    ReadAbsorbs(c, s, w);
    var p := s.peers[w];
    var local := Absorb(s.locals[w], s.channels[p.stage][w][0].payload);
    if p.stage == 1 {
      DrainAborts(c, ViewOf(s), local, w);
    } else {
      assert p.stage == 2;
      FinishAborts(c, s, w, local);
    }
    ExecutorFails(c, s);
  }

  lemma OpenKeepsGood(c: Setup, s: Crew)
    requires ValidSetup(c) && Steady(c, s) && Enabled(c, s, Exchange.Open)
    requires Numbers(c.pool.m) && GoodConfig(c.pool.m, s.prev)
    ensures GoodConfig(c.pool.m, DoOpen(c, s).prev)
  {
    hide Steady, AfterAll, Barrier, Numbers, GoodConfig, RunsAll, TakesAll, AllHome, RunRound, Between;
    GetShape(c, s);
    forall w | 0 <= w < c.pool.workers
      ensures RunsAll(c, ViewOf(s), w) && TakesAll(c, ViewOf(s), w)
    {
      GetWorker(c, s, w);
    }
    var ds := AfterAll(c, ViewOf(s));
    RoundIsExecutors(c, ViewOf(s));
    var n := RoundIsSerial(c.pool.m, s.prev, s.horizon, c.pool.plan.capacity);
    BarrierSize(ds);
    OpenBetween(c, s, s.(open := s.open + 1, prev := Barrier(ds)));
    assert DoOpen(c, s).prev == Barrier(ds);
  }

  lemma ActKeepsGood(c: Setup, s: Crew, a: Action)
    requires ValidSetup(c) && Steady(c, s) && Enabled(c, s, a)
    requires Numbers(c.pool.m) && GoodConfig(c.pool.m, s.prev)
    ensures GoodConfig(c.pool.m, Act(c, s, a).prev)
    ensures Act(c, s, a).status.Aborted? ==> RunRounds(c.pool.m, c.pool.config, c.pool.plan, U64_MAX) == None
  {
    hide Steady, Numbers, GoodConfig, RunRounds, EndStage, Absorb, Content;
    GetShape(c, s);
    match a
    case Send(w) => SendMoves(c, s, w);
    case Read(w) =>
      if DoRead(c, s, w).status.Aborted? {
        ReadAborts(c, s, w);
      }
    case Open =>
      OpenKeepsGood(c, s);
      OpenKeeps(c, s);
  }

  /** The pool fails only where the executor fails. */
  lemma {:induction false} AbortIsReal(c: Setup, actions: seq<Action>)
    requires ValidSetup(c) && Numbers(c.pool.m) && GoodConfig(c.pool.m, c.pool.config) && Run(c, actions).Some?
    ensures GoodConfig(c.pool.m, Run(c, actions).value.prev)
    ensures Run(c, actions).value.status.Aborted? ==> RunRounds(c.pool.m, c.pool.config, c.pool.plan, U64_MAX) == None
  {
    hide Steady, Shaped, Act, Initial, Numbers, GoodConfig, RunRounds;
    InitialInv(c);
    if actions == [] {
      RunsKeepInvariant(c, actions);
      InitialRuns(c);
    } else {
      AbortIsReal(c, actions[..|actions| - 1]);
      RunsKeepInvariant(c, actions[..|actions| - 1]);
      ActKeepsGood(c, Run(c, actions[..|actions| - 1]).value, actions[|actions| - 1]);
    }
  }

  lemma InitialRuns(c: Setup)
    requires ValidSetup(c)
    ensures Initial(c).status.Running?
  {
  }
}
