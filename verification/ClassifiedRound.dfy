/** What a classified round does to the processes: who runs each active process, what goes home from
there, and that all of it together is one round of the executor. */
module ClassifiedRound {
  import opened Events
  import opened LogicalProcess
  import opened Rounds
  import opened Executor
  import opened Classified
  import Pool = PoolState
  import PoolInvariant
  import Shard

  /** A pool whose round sets workers aside for processes with more than `threshold` events to run. */
  datatype Setup = Setup(pool: Pool.Setup, threshold: nat, configured: nat)

  ghost predicate ValidSetup(c: Setup) { Pool.ValidSetup(c.pool) && c.configured > 0 }

  /** A round: how the processes stand when it opens, and its exclusive end. */
  datatype View = View(prev: seq<Lp>, horizon: nat)

  ghost predicate Fits(c: Setup, v: View) { |v.prev| == |c.pool.owner| && WellKeyed(v.prev) }

  /** The estimate of a process: its events below the horizon. */
  ghost function Estimate(lp: Lp, horizon: nat): nat { |set e | e in lp.pending && e.key.time < horizon| }

  ghost predicate IsStraggler(c: Setup, lp: Lp, horizon: nat) { Estimate(lp, horizon) > c.threshold }

  ghost predicate IsActive(v: View, i: nat) { i < |v.prev| && Below(v.prev[i].pending, v.horizon) }

  /** The flag that worker `w` sends. */
  ghost predicate HasStraggler(c: Setup, v: View, w: nat)
    requires Fits(c, v)
  {
    exists i :: 0 <= i < |v.prev| && c.pool.owner[i] == w && IsActive(v, i) && IsStraggler(c, v.prev[i], v.horizon)
  }

  ghost predicate AnyStraggler(c: Setup, v: View) {
    exists i :: 0 <= i < |v.prev| && IsActive(v, i) && IsStraggler(c, v.prev[i], v.horizon)
  }

  /** Where a worker that knows of stragglers, or of none, sends process `i`. */
  ghost function Destination(c: Setup, any: bool, i: nat, lp: Lp, horizon: nat): nat
    requires ValidSetup(c) && i < |c.pool.owner|
    requires IsStraggler(c, lp, horizon) ==> any
  {
    RouteOf(c.pool.workers, Dedicated(c.pool.workers, c.configured, any),
            Item(i, c.pool.owner[i], IsStraggler(c, lp, horizon)))
  }

  /** The worker that runs active process `i`. */
  ghost function RunnerOf(c: Setup, v: View, i: nat): nat
    requires ValidSetup(c) && Fits(c, v) && IsActive(v, i)
  {
    Destination(c, AnyStraggler(c, v), i, v.prev[i], v.horizon)
  }

  lemma RunnerIsWorker(c: Setup, v: View, i: nat)
    requires ValidSetup(c) && Fits(c, v) && IsActive(v, i)
    ensures RunnerOf(c, v, i) < c.pool.workers
  {
    hide IsStraggler;
    var heavy := IsStraggler(c, v.prev[i], v.horizon);
    assert heavy ==> AnyStraggler(c, v);
    RouteIsRight(c.pool.workers, c.configured, Dedicated(c.pool.workers, c.configured, AnyStraggler(c, v)),
                 AnyStraggler(c, v), Item(i, c.pool.owner[i], heavy));
  }

  /** The drain of process `i` succeeds and knows the targets of what it sends. */
  ghost predicate Runs(c: Setup, v: View, i: nat)
    requires Fits(c, v) && i < |v.prev|
  {
    var d := DrainLp(c.pool.m, i, v.prev[i], v.horizon, c.pool.plan.capacity);
    d.Some? && forall e | e in d.value.outbox :: e.target < |v.prev|
  }

  /** What process `i` is after the round and what it sent. */
  ghost function After(c: Setup, v: View, i: nat): Drained
    requires Fits(c, v) && i < |v.prev|
  {
    var d := DrainLp(c.pool.m, i, v.prev[i], v.horizon, c.pool.plan.capacity);
    if IsActive(v, i) && d.Some? then d.value else Drained(v.prev[i], [])
  }

  ghost function AfterAll(c: Setup, v: View): (ds: Round)
    requires Fits(c, v)
    ensures |ds| == |v.prev| == |c.pool.owner|
  {
    seq(|v.prev|, i requires 0 <= i < |v.prev| => After(c, v, i))
  }

  /** The active processes of worker `w`. */
  ghost function ActiveOf(c: Setup, v: View, w: nat): map<nat, Lp>
    requires Fits(c, v)
  {
    map i | 0 <= i < |v.prev| && c.pool.owner[i] == w && IsActive(v, i) :: v.prev[i]
  }

  /** What the workers in `from` hand to worker `x`. */
  ghost function WorkFor(c: Setup, v: View, from: set<nat>, x: nat): map<nat, Lp>
    requires ValidSetup(c) && Fits(c, v)
  {
    map i | 0 <= i < |v.prev| && c.pool.owner[i] in from && IsActive(v, i) && RunnerOf(c, v, i) == x :: v.prev[i]
  }

  /** The processes of worker `o` that the workers in `via` send home. */
  ghost function HomeFor(c: Setup, v: View, via: set<nat>, o: nat): map<nat, Lp>
    requires ValidSetup(c) && Fits(c, v)
  {
    map i | 0 <= i < |v.prev| && c.pool.owner[i] == o && IsActive(v, i) && RunnerOf(c, v, i) in via :: After(c, v, i).lp
  }

  /** The events for worker `o` that the workers in `via` send. */
  ghost function MailFor(c: Setup, v: View, via: set<nat>, o: nat): set<Event>
    requires ValidSetup(c) && Fits(c, v)
  {
    set i, e | 0 <= i < |v.prev| && IsActive(v, i) && RunnerOf(c, v, i) in via && e in After(c, v, i).outbox &&
               e.target < |v.prev| && c.pool.owner[e.target] == o :: e
  }

  lemma WorkJoins(c: Setup, v: View, a: set<nat>, b: set<nat>, x: nat)
    requires ValidSetup(c) && Fits(c, v)
    ensures WorkFor(c, v, a + b, x) == WorkFor(c, v, a, x) + WorkFor(c, v, b, x)
  {
    hide RunnerOf, IsActive;
  }

  lemma HomeJoins(c: Setup, v: View, a: set<nat>, b: set<nat>, o: nat)
    requires ValidSetup(c) && Fits(c, v)
    ensures HomeFor(c, v, a + b, o) == HomeFor(c, v, a, o) + HomeFor(c, v, b, o)
  {
    hide RunnerOf, IsActive, After;
  }

  lemma MailJoins(c: Setup, v: View, a: set<nat>, b: set<nat>, o: nat)
    requires ValidSetup(c) && Fits(c, v)
    ensures MailFor(c, v, a + b, o) == MailFor(c, v, a, o) + MailFor(c, v, b, o)
  {
    hide RunnerOf, IsActive, After;
    forall e
      ensures e in MailFor(c, v, a + b, o) <==> e in MailFor(c, v, a, o) + MailFor(c, v, b, o)
    {
      if e in MailFor(c, v, a + b, o) {
        var i :| 0 <= i < |v.prev| && IsActive(v, i) && RunnerOf(c, v, i) in a + b && e in After(c, v, i).outbox;
      }
    }
  }

  predicate IsWorker(c: Setup, w: nat) { w < c.pool.workers }

  ghost function Workers(c: Setup): set<nat> { set w | 0 <= w < c.pool.workers && IsWorker(c, w) }

  /** All workers together hand over and send home exactly the active processes: each is run by one
      worker, and comes home to its own. */
  lemma AllRunAndComeHome(c: Setup, v: View, i: nat)
    requires ValidSetup(c) && Fits(c, v) && IsActive(v, i)
    ensures forall x :: i in WorkFor(c, v, Workers(c), x) <==> x == RunnerOf(c, v, i)
    ensures RunnerOf(c, v, i) in Workers(c)
    ensures forall o :: i in HomeFor(c, v, Workers(c), o) <==> o == c.pool.owner[i]
  {
    hide RunnerOf;
    RunnerIsWorker(c, v, i);
  }

  lemma HomeIsActive(c: Setup, v: View, o: nat)
    requires ValidSetup(c) && Fits(c, v)
    ensures HomeFor(c, v, Workers(c), o).Keys == ActiveOf(c, v, o).Keys
  {
    hide RunnerOf, IsActive, After;
    forall i | i in ActiveOf(c, v, o)
      ensures i in HomeFor(c, v, Workers(c), o)
    {
      RunnerIsWorker(c, v, i);
    }
  }

  /** The flags of all workers tell whether there is a straggler anywhere. */
  lemma FlagsTell(c: Setup, v: View)
    requires ValidSetup(c) && Fits(c, v)
    ensures (exists w :: w in Workers(c) && HasStraggler(c, v, w)) <==> AnyStraggler(c, v)
  {
    hide IsActive, IsStraggler;
    if AnyStraggler(c, v) {
      var i :| 0 <= i < |v.prev| && IsActive(v, i) && IsStraggler(c, v.prev[i], v.horizon);
      assert HasStraggler(c, v, c.pool.owner[i]);
    }
  }

  /** What all workers send to the owner of process `i` has for `i` just what the barrier delivers. */
  lemma MailIsInbox(c: Setup, v: View, i: nat)
    requires ValidSetup(c) && Fits(c, v) && i < |v.prev|
    ensures Pool.To(MailFor(c, v, Workers(c), c.pool.owner[i]), i) == Inbox(AfterAll(c, v), i)
  {
    hide RunnerOf, IsActive, DrainLp;
    var mail, ds := MailFor(c, v, Workers(c), c.pool.owner[i]), AfterAll(c, v);
    forall e | e in Inbox(ds, i)
      ensures e in mail && e.target == i
    {
      var j :| 0 <= j < |ds| && e in ds[j].outbox && e.target == i;
      assert IsActive(v, j) && e in After(c, v, j).outbox;
      RunnerIsWorker(c, v, j);
    }
    forall e | e in mail && e.target == i
      ensures e in Inbox(ds, i)
    {
      var j :| 0 <= j < |v.prev| && IsActive(v, j) && e in After(c, v, j).outbox;
      assert e in ds[j].outbox;
    }
  }

  /** Every process that worker `x` runs drains well. */
  ghost predicate RunsAll(c: Setup, v: View, x: nat)
    requires ValidSetup(c) && Fits(c, v)
  {
    forall i | i in WorkFor(c, v, Workers(c), x) :: Runs(c, v, i)
  }

  /** What all workers sent to worker `o` could be merged. */
  ghost predicate TakesAll(c: Setup, v: View, o: nat)
    requires ValidSetup(c) && Fits(c, v)
  {
    && (forall e | e in MailFor(c, v, Workers(c), o) :: v.horizon <= e.key.time)
    && (forall i | 0 <= i < |v.prev| && c.pool.owner[i] == o :: UniqueKeys(Merged(AfterAll(c, v), i).pending))
  }

  lemma IdleRuns(c: Setup, v: View, i: nat)
    requires Fits(c, v) && i < |v.prev| && !IsActive(v, i)
    ensures Runs(c, v, i) && DrainLp(c.pool.m, i, v.prev[i], v.horizon, c.pool.plan.capacity) == Some(After(c, v, i))
  {
    Shard.IdleDrain(c.pool.m, i, v.prev[i], v.horizon, c.pool.plan.capacity);
  }

  lemma EachRuns(c: Setup, v: View, i: nat)
    requires ValidSetup(c) && Fits(c, v) && i < |v.prev| && forall x | 0 <= x < c.pool.workers :: RunsAll(c, v, x)
    ensures Runs(c, v, i) && DrainLp(c.pool.m, i, v.prev[i], v.horizon, c.pool.plan.capacity) == Some(After(c, v, i))
  {
    hide RunnerOf, DrainLp;
    if IsActive(v, i) {
      RunnerIsWorker(c, v, i);
      assert RunsAll(c, v, RunnerOf(c, v, i));
      assert i in WorkFor(c, v, Workers(c), RunnerOf(c, v, i));
    } else {
      IdleRuns(c, v, i);
    }
  }

  /** If every worker runs its part, the drains are those of the executor. */
  lemma DrainsAreExecutors(c: Setup, v: View)
    requires ValidSetup(c) && Fits(c, v) && forall x | 0 <= x < c.pool.workers :: RunsAll(c, v, x)
    ensures DrainAll(c.pool.m, v.prev, v.horizon, c.pool.plan.capacity) == Some(AfterAll(c, v))
    ensures PoolInvariant.KnownTargets(AfterAll(c, v))
  {
    hide RunsAll, After, DrainLp;
    forall i | 0 <= i < |v.prev|
      ensures Runs(c, v, i) && DrainLp(c.pool.m, i, v.prev[i], v.horizon, c.pool.plan.capacity) == Some(After(c, v, i))
    {
      EachRuns(c, v, i);
    }
    assert DrainAll(c.pool.m, v.prev, v.horizon, c.pool.plan.capacity).value == AfterAll(c, v);
  }

  /** If besides every worker merges what it is sent, the barrier accepts. */
  lemma AllTake(c: Setup, v: View)
    requires ValidSetup(c) && Fits(c, v)
    requires forall x | 0 <= x < c.pool.workers :: TakesAll(c, v, x)
    requires PoolInvariant.KnownTargets(AfterAll(c, v))
    ensures Accepts(AfterAll(c, v), v.horizon)
  {
    hide RunnerOf, IsActive, After, Merged;
    var ds := AfterAll(c, v);
    forall j, e | 0 <= j < |ds| && e in ds[j].outbox
      ensures v.horizon <= e.key.time
    {
      MailIsInbox(c, v, e.target);
      assert TakesAll(c, v, c.pool.owner[e.target]);
      assert e in Inbox(ds, e.target);
    }
    forall i | 0 <= i < |ds|
      ensures UniqueKeys(Merged(ds, i).pending)
    {
      assert TakesAll(c, v, c.pool.owner[i]);
    }
  }

  /** A classified round in which all workers succeed is the round of the executor. */
  lemma RoundIsExecutors(c: Setup, v: View)
    requires ValidSetup(c) && Fits(c, v)
    requires forall x | 0 <= x < c.pool.workers :: RunsAll(c, v, x) && TakesAll(c, v, x)
    ensures RunRound(c.pool.m, v.prev, v.horizon, c.pool.plan.capacity) == Some(Barrier(AfterAll(c, v)))
  {
    hide RunsAll, TakesAll, DrainAll, Accepts, AfterAll, Barrier;
    DrainsAreExecutors(c, v);
    AllTake(c, v);
  }

  /** A process is a straggler exactly if more of its pending events than the threshold lie below the horizon. */
  lemma StragglerIs(c: Setup, lp: Lp, horizon: nat)
    ensures IsStraggler(c, lp, horizon) <==>
            exists heavy: set<Event> ::
              heavy <= lp.pending && |heavy| == c.threshold + 1 && forall e | e in heavy :: e.key.time < horizon
  {
    var below := set e | e in lp.pending && e.key.time < horizon;
    if IsStraggler(c, lp, horizon) {
      var heavy := SomeOf(below, c.threshold + 1);
    }
    if heavy: set<Event> :| heavy <= lp.pending && |heavy| == c.threshold + 1 && forall e | e in heavy :: e.key.time < horizon {
      assert heavy + (below - heavy) == below;
    }
  }

  lemma SomeOf(of: set<Event>, n: nat) returns (part: set<Event>)
    requires n <= |of|
    ensures part <= of && |part| == n
  {
    part := of;
    while |part| > n
      invariant part <= of && n <= |part|
    {
      var e :| e in part;
      part := part - {e};
    }
  }
}
