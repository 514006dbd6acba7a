/** Every schedule of the classified pool ends: each step moves one worker or the coordinator on by one. */
module ClassifiedProgress {
  import opened Basics
  import opened Events
  import opened LogicalProcess
  import opened Rounds
  import opened Executor
  import opened ClassifiedRound
  import opened ClassifiedPool
  import opened ClassifiedSteps
  import opened ClassifiedRuns
  import Completeness
  import Exchange
  import Pool = PoolState
  import PoolProgress
  import PoolRuns

  /** How many messages a worker has sent and read so far. */
  function Walked(workers: nat, p: Exchange.Peer): nat {
    PoolProgress.Times(p.round, 6 * workers) +
    (if p.stage == 0 then 0 else if p.stage == 1 then 2 * workers else 4 * workers) + p.sent + |p.seen|
  }

  function AllWalked(peers: seq<Exchange.Peer>): seq<nat> {
    seq(|peers|, w requires 0 <= w < |peers| => Walked(|peers|, peers[w]))
  }

  function Steps(s: Crew): nat { Sum(AllWalked(s.peers)) + s.open }

  lemma PeerMoves(peers: seq<Exchange.Peer>, w: nat, p: Exchange.Peer)
    requires w < |peers| && Walked(|peers|, p) == Walked(|peers|, peers[w]) + 1
    ensures Sum(AllWalked(peers[w := p])) == Sum(AllWalked(peers)) + 1
  {
    hide Walked;
    SumUpdate(AllWalked(peers), w, Walked(|peers|, p));
    assert AllWalked(peers[w := p]) == AllWalked(peers)[w := Walked(|peers|, p)];
  }

  lemma NextRound(round: nat, k: nat)
    ensures PoolProgress.Times(round + 1, k) == PoolProgress.Times(round, k) + k
  {
    assert (round + 1) * k == round * k + k;
  }

  lemma ReadWalks(c: Setup, p: Exchange.Peer, source: nat)
    requires Exchange.PeerOk(Wires(c), p.round, p) && p.sent == c.pool.workers && source !in p.seen
    ensures Walked(c.pool.workers, Exchange.Advanced(Wires(c), p, p.seen + {source})) == Walked(c.pool.workers, p) + 1
  {
    hide PoolProgress.Times;
    NextRound(p.round, 6 * c.pool.workers);
    assert |p.seen + {source}| == |p.seen| + 1;
  }

  lemma ReadPeers(c: Setup, s: Crew, w: nat)
    requires ValidSetup(c) && Shaped(c, s) && Enabled(c, s, Exchange.Read(w)) && DoRead(c, s, w).status.Running?
    ensures var p, r := s.peers[w], DoRead(c, s, w);
            && r.open == s.open
            && r.peers == s.peers[w := Exchange.Advanced(Wires(c), p, p.seen + {s.channels[p.stage][w][0].source})]
  {
    hide EndStage, Absorb, Exchange.Advanced;
  }

  lemma ReadSteps(c: Setup, s: Crew, w: nat)
    requires ValidSetup(c) && Steady(c, s) && Enabled(c, s, Exchange.Read(w)) && DoRead(c, s, w).status.Running?
    ensures Steps(DoRead(c, s, w)) == Steps(s) + 1
  {
    hide Steady, Walked, Sum, AllWalked, DoRead, Exchange.Advanced, Due, Exchange.HasSent, WorkerOk;
    GetShape(c, s);
    HeadIsDue(c, s, w);
    GetWorker(c, s, w);
    ReadPeers(c, s, w);
    var p := s.peers[w];
    var source := s.channels[p.stage][w][0].source;
    ReadWalks(c, p, source);
    PeerMoves(s.peers, w, Exchange.Advanced(Wires(c), p, p.seen + {source}));
  }

  lemma SendSteps(c: Setup, s: Crew, w: nat)
    requires ValidSetup(c) && Shaped(c, s) && Enabled(c, s, Exchange.Send(w))
    ensures Steps(DoSend(c, s, w)) == Steps(s) + 1
  {
    hide Walked, Sum, AllWalked, Content;
    var p := s.peers[w];
    SendWalks(c, p);
    PeerMoves(s.peers, w, p.(sent := p.sent + 1));
    assert DoSend(c, s, w).peers == s.peers[w := p.(sent := p.sent + 1)];
  }

  lemma OpenSteps(c: Setup, s: Crew)
    requires Shaped(c, s)
    ensures Steps(DoOpen(c, s)) == Steps(s) + 1
  {
    hide Sum, AllWalked, Pool.LeastOf, Horizon;
  }

  /** Each step is one. */
  lemma ActSteps(c: Setup, s: Crew, a: Action)
    requires ValidSetup(c) && Steady(c, s) && Shaped(c, s) && Enabled(c, s, a) && Act(c, s, a).status.Running?
    ensures Steps(Act(c, s, a)) == Steps(s) + 1
  {
    hide Steady, Steps, Shaped, DoSend, DoRead, DoOpen;
    match a
    case Send(w) => SendSteps(c, s, w);
    case Read(w) => ReadSteps(c, s, w);
    case Open => OpenSteps(c, s);
  }

  lemma SendWalks(c: Setup, p: Exchange.Peer)
    ensures Walked(c.pool.workers, p.(sent := p.sent + 1)) == Walked(c.pool.workers, p) + 1
  {
  }

  lemma {:induction false} NoneWalked(ns: seq<nat>)
    requires forall k | 0 <= k < |ns| :: ns[k] == 0
    ensures Sum(ns) == 0
  {
    if ns != [] {
      NoneWalked(ns[..|ns| - 1]);
    }
  }

  /** A run has as many steps as its state tells. */
  lemma {:induction false} RunsAreCounted(c: Setup, actions: seq<Action>)
    requires ValidSetup(c) && Run(c, actions).Some? && Run(c, actions).value.status.Running?
    ensures |actions| == Steps(Run(c, actions).value)
  {
    hide Steady, Shaped, Act, Enabled, Steps, Initial;
    if actions == [] {
      NothingWalked(c);
    } else {
      var before, a := actions[..|actions| - 1], actions[|actions| - 1];
      RunsKeepInvariant(c, before);
      var s := Run(c, before).value;
      IsRunning(c, s, a);
      RunsAreCounted(c, before);
      ActSteps(c, s, a);
    }
  }

  lemma IsRunning(c: Setup, s: Crew, a: Action)
    requires ValidSetup(c) && Shaped(c, s) && Enabled(c, s, a)
    ensures s.status.Running? && !s.over
  {
  }

  lemma NothingWalked(c: Setup)
    requires ValidSetup(c)
    ensures Steps(Initial(c)) == 0
  {
    NoneWalked(AllWalked(Initial(c).peers));
  }

  lemma {:induction false} SumAtMost(ns: seq<nat>, k: nat)
    requires forall i | 0 <= i < |ns| :: ns[i] <= k
    ensures Sum(ns) <= PoolProgress.Times(|ns|, k)
  {
    if ns != [] {
      SumAtMost(ns[..|ns| - 1], k);
      NextRound(|ns| - 1, k);
    }
  }

  /** The most steps a run can have before it is over. */
  function Bound(workers: nat): nat {
    PoolProgress.Times(workers, PoolProgress.Times(U64_MAX + 1, 6 * workers)) + U64_MAX
  }

  lemma TimesGrows(a: nat, b: nat, k: nat)
    requires a <= b
    ensures PoolProgress.Times(a, k) <= PoolProgress.Times(b, k)
  {
    assert (b - a) * k >= 0;
    assert b * k == a * k + (b - a) * k;
  }

  lemma WalkedAtMost(c: Setup, open: nat, p: Exchange.Peer)
    requires Exchange.PeerOk(Wires(c), open, p) && open <= U64_MAX
    ensures Walked(c.pool.workers, p) <= PoolProgress.Times(U64_MAX + 1, 6 * c.pool.workers)
  {
    hide PoolProgress.Times;
    NextRound(open, 6 * c.pool.workers);
    TimesGrows(open + 1, U64_MAX + 1, 6 * c.pool.workers);
  }

  lemma StepsAtMost(c: Setup, s: Crew)
    requires ValidSetup(c) && Steady(c, s) && !s.over
    ensures Steps(s) <= Bound(c.pool.workers)
  {
    hide Steady, Sum, PoolProgress.Times, Walked;
    GetShape(c, s);
    var k := PoolProgress.Times(U64_MAX + 1, 6 * c.pool.workers);
    forall w | 0 <= w < c.pool.workers
      ensures AllWalked(s.peers)[w] <= k
    {
      GetWorker(c, s, w);
      WalkedAtMost(c, s.open, s.peers[w]);
    }
    SumAtMost(AllWalked(s.peers), k);
  }

  /** No schedule is longer than the messages of all rounds there can be. */
  lemma RunsAreBounded(c: Setup, actions: seq<Action>)
    requires ValidSetup(c) && Run(c, actions).Some?
    ensures |actions| <= Bound(c.pool.workers) + 1
  {
    hide Steady, Shaped, Act, Enabled, Steps, Initial, Bound;
    if actions != [] {
      var before := actions[..|actions| - 1];
      RunsKeepInvariant(c, before);
      IsRunning(c, Run(c, before).value, actions[|actions| - 1]);
      RunsAreCounted(c, before);
      StepsAtMost(c, Run(c, before).value);
    }
  }

  ghost predicate IsFinal(s: Crew) { s.over || !s.status.Running? }

  /** From every reachable state, whatever was scheduled so far, going on leads to an end. */
  lemma {:induction false} RunsEnd(c: Setup, actions: seq<Action>) returns (all: seq<Action>)
    requires ValidSetup(c) && Run(c, actions).Some?
    ensures actions <= all && Run(c, all).Some? && IsFinal(Run(c, all).value)
    decreases Bound(c.pool.workers) + 1 - |actions|
  {
    hide Run, Bound;
    if IsFinal(Run(c, actions).value) {
      all := actions;
    } else {
      var a := NeverStuck(c, actions);
      RunsAreBounded(c, actions + [a]);
      all := RunsEnd(c, actions + [a]);
    }
  }

  /** If transitions keep the lookahead and the serial machine finishes, every schedule of the classified
      pool can be carried on to an end, and every end has the serial result. */
  lemma PoolFinishes(c: Setup, actions: seq<Action>, n: nat, g: Completeness.Serial.Machine) returns (all: seq<Action>)
    requires ValidSetup(c) && Numbers(c.pool.m) && GoodConfig(c.pool.m, c.pool.config)
    requires Completeness.Causal(c.pool.m, |c.pool.config|, c.pool.plan.lookahead)
    requires (c.pool.plan.lookahead.Some? ==> c.pool.plan.lookahead.value > 0) && c.pool.plan.capacity.None?
    requires Completeness.EndsIn(c.pool.m, Start(c.pool.config), c.pool.plan.runEnd, n, g) && n <= U64_MAX
    requires Run(c, actions).Some?
    ensures actions <= all && Run(c, all).Some? && Run(c, all).value.status.Running? && Run(c, all).value.over
    ensures Flat(Start(Run(c, all).value.prev)) == g
  {
    hide Numbers, GoodConfig, Run, RunRounds, Inv, Completeness.Causal, Completeness.EndsIn, Flat;
    var final := Completeness.SerialIsRounds(c.pool.m, c.pool.config, c.pool.plan, U64_MAX, n, g);
    all := RunsEnd(c, actions);
    RunsKeepInvariant(c, all);
    AbortIsReal(c, all);
    NotMismatched(c, Run(c, all).value);
    PoolIsExecutor(c, all);
  }

  lemma NotMismatched(c: Setup, s: Crew)
    requires ValidSetup(c) && Inv(c, s) && !s.status.Aborted?
    ensures s.status.Running?
  {
  }

  /** The static pool and the classified pool, whatever their schedules, thresholds and dedicated
      workers, end with the same processes. */
  lemma PoolsAgree(c: Setup, actions: seq<Action>, others: seq<Pool.Action>)
    requires ValidSetup(c) && Run(c, actions).Some? && PoolRuns.Run(c.pool, others).Some?
    requires Run(c, actions).value.status.Running? && Run(c, actions).value.over
    requires PoolRuns.Run(c.pool, others).value.status.Running? && PoolRuns.Run(c.pool, others).value.coordinator.duty.Over?
    ensures var (s, t) := (Run(c, actions).value, PoolRuns.Run(c.pool, others).value);
            |s.lps| == |t.lps| && forall i | 0 <= i < |s.lps| :: s.lps[i] == Some(t.lps[i])
  {
    hide Run, PoolRuns.Run, RunRounds;
    PoolIsExecutor(c, actions);
    PoolRuns.PoolIsExecutor(c.pool, others);
  }
}
