/** How batches, counts and minima describe what a round sent. */
module PoolLemmas {
  import opened Events
  import opened Rounds
  import opened Executor
  import opened PoolState
  import opened PoolInvariant

  /** Two records agree on the processes of the workers in `of`. */
  ghost predicate Agree(owner: seq<nat>, a: Round, b: Round, of: set<nat>)
    requires |a| == |b| == |owner|
  {
    forall j | 0 <= j < |owner| && owner[j] in of :: a[j] == b[j]
  }

  lemma SentAgrees(owner: seq<nat>, a: Round, b: Round, v: nat, w: nat)
    requires |a| == |b| == |owner| && Agree(owner, a, b, {v})
    ensures Sent(owner, a, v, w) == Sent(owner, b, v, w)
  {
  }

  lemma ReceivedAgrees(owner: seq<nat>, a: Round, b: Round, from: set<nat>, i: nat)
    requires |a| == |b| == |owner| && Agree(owner, a, b, from)
    ensures Received(owner, a, from, i) == Received(owner, b, from, i)
  {
  }

  lemma NothingReceived(owner: seq<nat>, ds: Round, i: nat)
    requires |ds| == |owner|
    ensures Received(owner, ds, {}, i) == {}
  {
  }

  /** One more source adds its batch. */
  lemma ReceivedMore(owner: seq<nat>, ds: Round, from: set<nat>, v: nat, w: nat, i: nat)
    requires |ds| == |owner| && i < |owner| && owner[i] == w
    ensures Received(owner, ds, from + {v}, i) == Received(owner, ds, from, i) + To(Sent(owner, ds, v, w), i)
  {
    forall e
      ensures e in Received(owner, ds, from + {v}, i) <==>
              e in Received(owner, ds, from, i) + To(Sent(owner, ds, v, w), i)
    {
      if e in Received(owner, ds, from + {v}, i) {
        var j :| 0 <= j < |ds| && owner[j] in from + {v} && e in ds[j].outbox && e.target == i;
        assert owner[j] == v ==> e in Sent(owner, ds, v, w);
      }
    }
  }

  /** All sources together are the inbox of the barrier. */
  lemma ReceivedFromAll(u: Setup, ds: Round, w: nat, i: nat)
    requires ValidSetup(u) && |ds| == |u.owner| && i < |ds| && u.owner[i] == w
    ensures Received(u.owner, ds, Sources(u, ds, w), i) == Inbox(ds, i)
    ensures Filled(u.owner, ds, Sources(u, ds, w), i) == Merged(ds, i)
  {
    forall e | e in Inbox(ds, i)
      ensures e in Received(u.owner, ds, Sources(u, ds, w), i)
    {
      var j :| 0 <= j < |ds| && e in ds[j].outbox && e.target == i;
      assert e in Sent(u.owner, ds, u.owner[j], w);
    }
  }

  /** The least time of a union is the lesser of the two. */
  lemma MinTimeOfUnion(a: set<Event>, b: set<Event>)
    ensures MinTime(a + b) == Lesser(MinTime(a), MinTime(b))
  {
    var least := Lesser(MinTime(a), MinTime(b));
    if least.None? {
      assert a + b == {};
    } else {
      assert IsMinTime(a + b, least.value) by {
        var e :| e in (if MinTime(a) == least then a else b) && e.key.time == least.value;
        assert e in a + b;
      }
      MinTimeIs(a + b, least.value);
    }
  }

  lemma MinTimeOfNone()
    ensures MinTime({}) == None
  {
  }

  /** What the first `n` workers sent to `w`. */
  ghost function SentByFirst(owner: seq<nat>, ds: Round, n: nat, w: nat): set<Event>
    requires |ds| == |owner|
  {
    if n == 0 then {} else SentByFirst(owner, ds, n - 1, w) + Sent(owner, ds, n - 1, w)
  }

  lemma {:induction false} SentByFirstMember(owner: seq<nat>, ds: Round, n: nat, w: nat, e: Event)
    requires |ds| == |owner|
    ensures e in SentByFirst(owner, ds, n, w) <==> exists v :: 0 <= v < n && e in Sent(owner, ds, v, w)
  {
    if n > 0 {
      SentByFirstMember(owner, ds, n - 1, w, e);
    }
  }

  lemma HeldMember(u: Setup, ds: Round, w: nat, e: Event)
    requires ValidSetup(u) && |ds| == |u.owner|
    ensures e in HeldAt(u.owner, ds, w) <==>
            e in Kept(u.owner, ds, w) || exists i :: 0 <= i < |ds| && u.owner[i] == w && e in Inbox(ds, i)
  {
    hide Inbox;
    if i :| 0 <= i < |ds| && u.owner[i] == w && e in Merged(ds, i).pending {
      assert e in ds[i].lp.pending ==> e in Kept(u.owner, ds, w);
    }
    if i :| 0 <= i < |ds| && u.owner[i] == w && e in Inbox(ds, i) {
      assert e in Merged(ds, i).pending;
    }
    if i :| 0 <= i < |ds| && u.owner[i] == w && e in ds[i].lp.pending {
      assert e in Merged(ds, i).pending;
    }
  }

  lemma InboxMember(u: Setup, ds: Round, w: nat, e: Event)
    requires ValidSetup(u) && |ds| == |u.owner|
    ensures (exists i :: 0 <= i < |ds| && u.owner[i] == w && e in Inbox(ds, i)) <==>
            exists v :: 0 <= v < u.workers && e in Sent(u.owner, ds, v, w)
  {
    if i :| 0 <= i < |ds| && u.owner[i] == w && e in Inbox(ds, i) {
      var j :| 0 <= j < |ds| && e in ds[j].outbox && e.target == i;
      assert e in Sent(u.owner, ds, u.owner[j], w);
    }
    if v :| 0 <= v < u.workers && e in Sent(u.owner, ds, v, w) {
      assert e in Inbox(ds, e.target);
    }
  }

  /** A worker holds after the barrier what it kept and what all workers sent to it. */
  lemma HeldIsKeptAndSent(u: Setup, ds: Round, w: nat)
    requires ValidSetup(u) && |ds| == |u.owner|
    ensures HeldAt(u.owner, ds, w) == Kept(u.owner, ds, w) + SentByFirst(u.owner, ds, u.workers, w)
  {
    hide HeldAt, Kept, SentByFirst, Sent, Inbox;
    forall e
      ensures e in HeldAt(u.owner, ds, w) <==>
              e in Kept(u.owner, ds, w) + SentByFirst(u.owner, ds, u.workers, w)
    {
      SentByFirstMember(u.owner, ds, u.workers, w, e);
      HeldMember(u, ds, w, e);
      InboxMember(u, ds, w, e);
    }
  }

  /** Right reports of every worker about one round. */
  ghost predicate AllReport(u: Setup, ds: Round, reports: seq<Report>)
    requires |ds| == |u.owner|
  {
    && |reports| == u.workers
    && forall v | 0 <= v < u.workers ::
         |reports[v].metadata| == u.workers && Reports(u, ds, v, reports[v].metadata, reports[v].minimum)
  }

  ghost function MinimaFor(reports: seq<Report>, o: nat, n: nat): seq<Option<U64>>
    requires n <= |reports| && forall v | 0 <= v < |reports| :: o < |reports[v].metadata|
  {
    seq(n, v requires 0 <= v < n => reports[v].metadata[o].minimum)
  }

  lemma {:induction false} LeastIsMinTime(u: Setup, ds: Round, reports: seq<Report>, o: nat, n: nat)
    requires |ds| == |u.owner| && AllReport(u, ds, reports) && o < u.workers && n <= u.workers
    ensures LeastOf(MinimaFor(reports, o, n)) == MinTime(SentByFirst(u.owner, ds, n, o))
  {
    if n > 0 {
      LeastIsMinTime(u, ds, reports, o, n - 1);
      assert MinimaFor(reports, o, n)[..n - 1] == MinimaFor(reports, o, n - 1);
      MinTimeOfUnion(SentByFirst(u.owner, ds, n - 1, o), Sent(u.owner, ds, n - 1, o));
      assert reports[n - 1].metadata[o] == MetadataOf(Sent(u.owner, ds, n - 1, o));
    }
  }

  /** The folded minimum of an owner is its true least time, unmerged batches included. */
  lemma FoldedMinimumIsTrue(u: Setup, ds: Round, reports: seq<Report>, o: nat)
    requires ValidSetup(u) && |ds| == |u.owner| && AllReport(u, ds, reports) && o < u.workers
    ensures FoldedMinimum(reports, o) == MinTime(HeldAt(u.owner, ds, o))
  {
    LeastIsMinTime(u, ds, reports, o, u.workers);
    assert MinimaFor(reports, o, u.workers) ==
           seq(|reports|, v requires 0 <= v < |reports| => reports[v].metadata[o].minimum);
    HeldIsKeptAndSent(u, ds, o);
    MinTimeOfUnion(Kept(u.owner, ds, o), SentByFirst(u.owner, ds, u.workers, o));
  }

  ghost function CountsFor(reports: seq<Report>, o: nat, n: nat): seq<nat>
    requires n <= |reports| && forall v | 0 <= v < |reports| :: o < |reports[v].metadata|
  {
    seq(n, v requires 0 <= v < n => reports[v].metadata[o].batches)
  }

  ghost function SourcesBelow(u: Setup, ds: Round, w: nat, n: nat): set<nat>
    requires |ds| == |u.owner|
  {
    set v | 0 <= v < n && Sent(u.owner, ds, v, w) != {}
  }

  lemma SourcesStep(u: Setup, ds: Round, w: nat, n: nat)
    requires |ds| == |u.owner|
    ensures |SourcesBelow(u, ds, w, n + 1)| ==
            |SourcesBelow(u, ds, w, n)| + if Sent(u.owner, ds, n, w) == {} then 0 else 1
  {
    hide Sent;
    var before := SourcesBelow(u, ds, w, n);
    assert SourcesBelow(u, ds, w, n + 1) == if Sent(u.owner, ds, n, w) == {} then before else before + {n};
  }

  lemma NoCounts(u: Setup, ds: Round, reports: seq<Report>, o: nat)
    requires |ds| == |u.owner| && forall v | 0 <= v < |reports| :: o < |reports[v].metadata|
    ensures Total(CountsFor(reports, o, 0)) == 0 == |SourcesBelow(u, ds, o, 0)|
  {
    assert SourcesBelow(u, ds, o, 0) == {};
  }

  lemma TotalStep(reports: seq<Report>, o: nat, n: nat)
    requires n < |reports| && forall v | 0 <= v < |reports| :: o < |reports[v].metadata|
    ensures Total(CountsFor(reports, o, n + 1)) == Total(CountsFor(reports, o, n)) + reports[n].metadata[o].batches
  {
    assert CountsFor(reports, o, n + 1)[..n] == CountsFor(reports, o, n);
  }

  lemma {:induction false} TotalIsSources(u: Setup, ds: Round, reports: seq<Report>, o: nat, n: nat)
    requires |ds| == |u.owner| && AllReport(u, ds, reports) && o < u.workers && n <= u.workers
    ensures Total(CountsFor(reports, o, n)) == |SourcesBelow(u, ds, o, n)|
  {
    hide Sent, Total, CountsFor, MinTime, Kept;
    if n == 0 {
      NoCounts(u, ds, reports, o);
    } else {
      TotalIsSources(u, ds, reports, o, n - 1);
      TotalStep(reports, o, n - 1);
      SourcesStep(u, ds, o, n - 1);
      assert reports[n - 1].metadata[o] == MetadataOf(Sent(u.owner, ds, n - 1, o));
    }
  }

  /** The folded count of an owner is the number of workers that sent to it. */
  lemma FoldedCountIsTrue(u: Setup, ds: Round, reports: seq<Report>, o: nat)
    requires |ds| == |u.owner| && AllReport(u, ds, reports) && o < u.workers
    ensures FoldedCount(reports, o) == |Sources(u, ds, o)|
  {
    TotalIsSources(u, ds, reports, o, u.workers);
    assert CountsFor(reports, o, u.workers) ==
           seq(|reports|, v requires 0 <= v < |reports| => reports[v].metadata[o].batches);
    assert SourcesBelow(u, ds, o, u.workers) == Sources(u, ds, o);
  }

  /** What the processes of the first `n` workers hold after the barrier. */
  ghost function HeldByFirst(owner: seq<nat>, ds: Round, n: nat): set<Event>
    requires |ds| == |owner|
  {
    if n == 0 then {} else HeldByFirst(owner, ds, n - 1) + HeldAt(owner, ds, n - 1)
  }

  lemma {:induction false} HeldByFirstMember(owner: seq<nat>, ds: Round, n: nat, e: Event)
    requires |ds| == |owner|
    ensures e in HeldByFirst(owner, ds, n) <==> exists w :: 0 <= w < n && e in HeldAt(owner, ds, w)
  {
    if n > 0 {
      HeldByFirstMember(owner, ds, n - 1, e);
    }
  }

  lemma {:induction false} LeastOfMinima(u: Setup, ds: Round, minima: seq<Option<U64>>, n: nat)
    requires |ds| == |u.owner| && n <= |minima|
    requires forall w | 0 <= w < n :: minima[w] == MinTime(HeldAt(u.owner, ds, w))
    ensures LeastOf(minima[..n]) == MinTime(HeldByFirst(u.owner, ds, n))
  {
    hide HeldAt, MinTime;
    MinTimeOfNone();
    if n > 0 {
      LeastOfMinima(u, ds, minima, n - 1);
      assert minima[..n][..n - 1] == minima[..n - 1];
      MinTimeOfUnion(HeldByFirst(u.owner, ds, n - 1), HeldAt(u.owner, ds, n - 1));
    }
  }

  /** What the workers hold after the barrier, all together, is everything. */
  lemma HeldIsAll(u: Setup, ds: Round)
    requires ValidSetup(u) && |ds| == |u.owner|
    ensures All(Start(Barrier(ds))) == HeldByFirst(u.owner, ds, u.workers)
  {
    hide Merged, HeldByFirst;
    var all := All(Start(Barrier(ds)));
    forall e
      ensures e in all <==> e in HeldByFirst(u.owner, ds, u.workers)
    {
      HeldByFirstMember(u.owner, ds, u.workers, e);
      AllMember(ds, e);
      if i :| 0 <= i < |ds| && e in Merged(ds, i).pending {
        assert e in HeldAt(u.owner, ds, u.owner[i]);
      }
    }
  }

  lemma AllMember(ds: Round, e: Event)
    ensures e in All(Start(Barrier(ds))) <==> exists i :: 0 <= i < |ds| && e in Merged(ds, i).pending
  {
    hide Merged;
    var start := Start(Barrier(ds));
    assert forall i | 0 <= i < |ds| :: Held(start[i]) == Merged(ds, i).pending;
  }

  /** The least of the published minima is the frontier of the whole configuration. */
  lemma LeastIsFrontier(u: Setup, ds: Round, minima: seq<Option<U64>>)
    requires ValidSetup(u) && |ds| == |u.owner| && |minima| == u.workers
    requires forall w | 0 <= w < u.workers :: minima[w] == MinTime(HeldAt(u.owner, ds, w))
    ensures LeastOf(minima) == Frontier(Barrier(ds))
  {
    hide HeldAt, HeldByFirst, MinTime, All, LeastOf;
    LeastOfMinima(u, ds, minima, u.workers);
    assert minima[..u.workers] == minima;
    HeldIsAll(u, ds);
  }
}
