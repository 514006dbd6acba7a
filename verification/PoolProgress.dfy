/** Every schedule of the pool ends: each action spends some of a bounded amount of work. */
module PoolProgress {
  import opened Basics
  import opened Events
  import opened Rounds
  import opened Executor
  import opened PoolState
  import opened PoolInvariant
  import opened PoolActions
  import opened PoolDrains
  import opened PoolRuns
  import opened PoolAborts
  import Completeness

  /** Round numbers that are left. */
  function Remaining(round: nat): nat { if round <= U64_MAX then U64_MAX + 1 - round else 0 }

  function Times(n: nat, k: nat): nat {
    assert n * k >= 0;
    n * k
  }

  lemma OneRoundLess(round: nat, k: nat)
    requires round <= U64_MAX
    ensures Times(Remaining(round), k) == Times(Remaining(round + 1), k) + k
  {
    assert (Remaining(round + 1) + 1) * k == Remaining(round + 1) * k + k;
  }

  /** What a worker can still do in its round, and in those after it. */
  function WorkOf(worker: Worker, workers: nat): nat {
    Times(Remaining(worker.round), 4 * workers + 6) +
    match worker.stage
    case Starting => 2 * workers + 6
    case Waiting(scan, held, _) => scan + (if held.None? then 1 else 0) + 2 * workers + 3
    case Sending(_, _, metadata, _) => 1 + if |metadata| <= workers then 2 * (workers - |metadata|) else 0
    case Gone => 0
  }

  function DutyWork(duty: Duty, workers: nat): nat {
    match duty
    case Preparing(_) => workers + 2
    case Deciding => workers + 2
    case Publishing(_, next) => if next <= workers then workers - next + 1 else 1
    case Collecting(_, _) => 1
    case Closing(next) => if next <= workers then workers - next + 1 else 1
    case Gathering(_) => 1
    case Over => 0
  }

  function WorkersLeft(workers: seq<Worker>): seq<nat> {
    seq(|workers|, w requires 0 <= w < |workers| => WorkOf(workers[w], |workers|))
  }

  function Unread(inboxes: seq<seq<Batch>>): seq<nat> { seq(|inboxes|, w requires 0 <= w < |inboxes| => |inboxes[w]|) }

  function Unheard(replies: seq<Option<Reply>>): seq<nat> {
    seq(|replies|, w requires 0 <= w < |replies| => if replies[w].Some? then 1 else 0)
  }

  /** All that is left to do. */
  function Work(s: Pool): nat {
    Sum(WorkersLeft(s.workers)) + Sum(Unread(s.inboxes)) + Sum(Unheard(s.replies)) +
    Times(Remaining(s.coordinator.round), |s.workers| + 2) + DutyWork(s.coordinator.duty, |s.workers|)
  }

  lemma WorkerChanges(workers: seq<Worker>, w: nat, worker: Worker)
    requires w < |workers|
    ensures Sum(WorkersLeft(workers[w := worker])) + WorkOf(workers[w], |workers|) ==
            Sum(WorkersLeft(workers)) + WorkOf(worker, |workers|)
  {
    hide WorkOf;
    SumUpdate(WorkersLeft(workers), w, WorkOf(worker, |workers|));
    assert WorkersLeft(workers[w := worker]) == WorkersLeft(workers)[w := WorkOf(worker, |workers|)];
  }

  lemma InboxChanges(inboxes: seq<seq<Batch>>, w: nat, inbox: seq<Batch>)
    requires w < |inboxes|
    ensures Sum(Unread(inboxes[w := inbox])) + |inboxes[w]| == Sum(Unread(inboxes)) + |inbox|
  {
    SumUpdate(Unread(inboxes), w, |inbox|);
    assert Unread(inboxes[w := inbox]) == Unread(inboxes)[w := |inbox|];
  }

  lemma ReplyChanges(replies: seq<Option<Reply>>, w: nat, reply: Option<Reply>)
    requires w < |replies|
    ensures Sum(Unheard(replies[w := reply])) + (if replies[w].Some? then 1 else 0) ==
            Sum(Unheard(replies)) + if reply.Some? then 1 else 0
  {
    SumUpdate(Unheard(replies), w, if reply.Some? then 1 else 0);
    assert Unheard(replies[w := reply]) == Unheard(replies)[w := if reply.Some? then 1 else 0];
  }

  lemma FewSources(u: Setup, ds: Round, w: nat)
    requires |ds| == |u.owner|
    ensures |Sources(u, ds, w)| <= u.workers
  {
    AtMost(Sources(u, ds, w), u.workers);
  }

  /** The batches of some senders, at most one of each, are no more than the senders. */
  lemma {:induction false} BatchesOf(from: set<nat>, round: nat, owner: seq<nat>, ds: Round, w: nat, mail: set<Batch>)
    requires |ds| == |owner|
    requires forall b | b in mail :: b.source in from && b == Batch(round, b.source, Sent(owner, ds, b.source, w))
    ensures |mail| <= |from|
    decreases from
  {
    if from == {} {
      assert mail == {};
    } else {
      var v :| v in from;
      var b := Batch(round, v, Sent(owner, ds, v, w));
      BatchesOf(from - {v}, round, owner, ds, w, mail - {b});
    }
  }

  lemma FewBatches(u: Setup, r: nat, h: History, workers: seq<Worker>, w: nat)
    requires |h.prev| == |h.now| == |u.owner| && |workers| == |h.merged| == u.workers && w < u.workers
    ensures |OldMail(u, r, h, workers, w) + NewMail(u, r, h, workers, w)| <= 2 * u.workers
  {
    FewSources(u, h.prev, w);
    FewSources(u, h.now, w);
    if r > 0 {
      BatchesOf(Sources(u, h.prev, w), r - 1, u.owner, h.prev, w, OldMail(u, r, h, workers, w));
    }
    BatchesOf(Sources(u, h.now, w), r, u.owner, h.now, w, NewMail(u, r, h, workers, w));
  }

  /** A worker never keeps more batches aside than two rounds can bring. */
  lemma FewPending(u: Setup, s: Pool, w: nat)
    requires ValidSetup(u) && Shaped(u, s) && w < u.workers && WorkerOk(u, s, w)
    ensures |s.workers[w].pending| <= 2 * u.workers
  {
    hide Obeys, OldMail, NewMail;
    FewBatches(u, s.coordinator.round, s.history, s.workers, w);
    var mail := OldMail(u, s.coordinator.round, s.history, s.workers, w) + NewMail(u, s.coordinator.round, s.history, s.workers, w);
    assert |multiset(s.workers[w].pending) + multiset(s.inboxes[w])| == |multiset(mail)|;
  }

  lemma SeesRound(u: Setup, s: Pool, w: nat)
    requires ValidSetup(u) && Shaped(u, s) && Steady(u, s) && w < u.workers && s.workers[w].stage.Sending?
    ensures s.workers[w].round <= U64_MAX
  {
    hide IsBehind, IsAhead, IsGone, MailIsDue, Confirmed, Decided;
    SenderIsDraining(u, s, w);
  }

  /** What is left at one worker: its own work, its inbox and its reply. */
  function Share(s: Pool, w: nat): nat
    requires w < |s.workers| == |s.inboxes| == |s.replies|
  {
    WorkOf(s.workers[w], |s.workers|) + |s.inboxes[w]| + if s.replies[w].Some? then 1 else 0
  }

  lemma ShareCounts(s: Pool, s': Pool, w: nat)
    requires w < |s.workers| == |s.inboxes| == |s.replies| && s'.coordinator == s.coordinator
    requires |s'.workers| == |s'.inboxes| == |s'.replies| == |s.workers|
    requires s'.workers == s.workers[w := s'.workers[w]] && s'.inboxes == s.inboxes[w := s'.inboxes[w]]
    requires s'.replies == s.replies[w := s'.replies[w]] && Share(s', w) < Share(s, w)
    ensures Work(s') < Work(s)
  {
    hide Sum, WorkersLeft, Unread, Unheard, WorkOf, DutyWork, Times;
    WorkerChanges(s.workers, w, s'.workers[w]);
    InboxChanges(s.inboxes, w, s'.inboxes[w]);
    ReplyChanges(s.replies, w, s'.replies[w]);
  }

  lemma MergeSpends(u: Setup, s: Pool, a: Action)
    requires ValidSetup(u) && Shaped(u, s) && Enabled(u, s, a) && Act(u, s, a).status.Running? && (a.Scan? || a.TakeBatch?)
    ensures Work(Act(u, s, a)) < Work(s)
  {
    hide Work, Mergeable, MergeInto, Times, Remaining;
    ShareCounts(s, Act(u, s, a), a.w);
  }

  lemma WorkerSpends(u: Setup, s: Pool, a: Action)
    requires ValidSetup(u) && Shaped(u, s) && Enabled(u, s, a) && Act(u, s, a).status.Running?
    requires a.Announce? || a.TakeCommand? || a.Seal?
    ensures Work(Act(u, s, a)) < Work(s)
  {
    hide Work, Drainable, DrainOwn, Settled, OwnPending, Times, Remaining;
    ShareCounts(s, Act(u, s, a), a.w);
  }

  lemma SendSpends(u: Setup, s: Pool, w: nat)
    requires ValidSetup(u) && Shaped(u, s) && Enabled(u, s, Send(w))
    ensures Work(DoSend(u, s, w)) < Work(s)
  {
    hide Sum, WorkersLeft, Unread, Unheard, Times, Remaining, MetadataOf;
    var s' := DoSend(u, s, w);
    var o := |s.workers[w].stage.metadata|;
    WorkerChanges(s.workers, w, s'.workers[w]);
    InboxChanges(s.inboxes, o, s'.inboxes[o]);
    assert s'.inboxes == s.inboxes[o := s'.inboxes[o]];
  }

  lemma CompleteSpends(u: Setup, s: Pool, w: nat)
    requires ValidSetup(u) && Shaped(u, s) && Steady(u, s) && Enabled(u, s, Complete(w))
    requires DoComplete(u, s, w).status.Running?
    ensures Work(DoComplete(u, s, w)) < Work(s)
  {
    hide Sum, WorkersLeft, Unread, Unheard, Times, Remaining, Steady, WorkerOk;
    var s' := DoComplete(u, s, w);
    SeesRound(u, s, w);
    GetWorker(u, s, w);
    FewPending(u, s, w);
    OneRoundLess(s.workers[w].round, 4 * u.workers + 6);
    WorkerChanges(s.workers, w, s'.workers[w]);
    ReplyChanges(s.replies, w, s'.replies[w]);
  }

  lemma ReceiveSpends(u: Setup, s: Pool, w: nat)
    requires ValidSetup(u) && Shaped(u, s) && Steady(u, s) && Enabled(u, s, Receive(w))
    requires DoReceive(u, s, w).status.Running?
    ensures Work(DoReceive(u, s, w)) < Work(s)
  {
    hide Sum, WorkersLeft, Unread, Unheard, Times, Remaining, WorkOf, FoldedCount, FoldedMinimum, Confirmed, Decided, WorkerOk;
    ReplyChanges(s.replies, w, None);
    OneRoundLess(s.coordinator.round, u.workers + 2);
  }

  lemma CoordinatorSpends(u: Setup, s: Pool, a: Action)
    requires ValidSetup(u) && Shaped(u, s) && Enabled(u, s, a) && (a.Decide? || a.Publish?)
    ensures Work(Act(u, s, a)) < Work(s)
  {
    hide Sum, WorkersLeft, Unread, Unheard, Times, Remaining, WorkOf;
  }

  /** Every action that does not abort leaves less to do. */
  lemma ActSpends(u: Setup, s: Pool, a: Action)
    requires ValidSetup(u) && Inv(u, s) && Enabled(u, s, a) && Act(u, s, a).status.Running?
    ensures Work(Act(u, s, a)) < Work(s)
  {
    hide Steady, Work, DoTakeCommand, DoScan, DoTakeBatch, DoSeal, DoSend, DoComplete, DoReceive, DoDecide, DoPublish;
    match a
    case Send(w) => SendSpends(u, s, w);
    case Complete(w) => CompleteSpends(u, s, w);
    case Receive(w) => ReceiveSpends(u, s, w);
    case Decide => CoordinatorSpends(u, s, a);
    case Publish => CoordinatorSpends(u, s, a);
    case Scan(w) => MergeSpends(u, s, a);
    case TakeBatch(w) => MergeSpends(u, s, a);
    case _ => WorkerSpends(u, s, a);
  }

  /** No schedule has more actions than there was work at the start, and one that aborts. */
  lemma {:induction false} RunsAreBounded(u: Setup, actions: seq<Action>)
    requires ValidSetup(u) && Run(u, actions).Some?
    ensures |actions| <= Work(Initial(u)) + 1
    ensures Run(u, actions).value.status.Running? ==> |actions| + Work(Run(u, actions).value) <= Work(Initial(u))
  {
    hide Work, Act, Enabled, Steady, Initial;
    if actions != [] {
      var before, a := actions[..|actions| - 1], actions[|actions| - 1];
      RunsAreBounded(u, before);
      RunsKeepInvariant(u, before);
      var s := Run(u, before).value;
      IsRunning(u, s, a);
      if Act(u, s, a).status.Running? {
        ActSpends(u, s, a);
      }
    }
  }

  /** From every reachable state, whatever was scheduled so far, going on leads to an end. */
  lemma {:induction false} RunsEnd(u: Setup, actions: seq<Action>) returns (all: seq<Action>)
    requires ValidSetup(u) && Run(u, actions).Some?
    ensures actions <= all && Run(u, all).Some? && IsFinal(Run(u, all).value)
    decreases Work(Initial(u)) + 1 - |actions|
  {
    hide Work, Inv, Initial, Run;
    RunsKeepInvariant(u, actions);
    RunsAreBounded(u, actions);
    var s := Run(u, actions).value;
    if IsFinal(s) {
      all := actions;
    } else {
      var a := NeverStuck(u, actions);
      RunsAreBounded(u, actions + [a]);
      all := RunsEnd(u, actions + [a]);
    }
  }

  /** If transitions keep the lookahead and the serial machine finishes, every schedule can be carried
      on to an end, and every end has the serial result. */
  lemma PoolFinishes(u: Setup, actions: seq<Action>, n: nat, g: Completeness.Serial.Machine) returns (all: seq<Action>)
    requires ValidSetup(u) && Numbers(u.m) && GoodConfig(u.m, u.config)
    requires Completeness.Causal(u.m, |u.config|, u.plan.lookahead)
    requires (u.plan.lookahead.Some? ==> u.plan.lookahead.value > 0) && u.plan.capacity.None?
    requires Completeness.EndsIn(u.m, Start(u.config), u.plan.runEnd, n, g) && n <= U64_MAX
    requires Run(u, actions).Some?
    ensures actions <= all && Run(u, all).Some? && Flat(Start(Run(u, all).value.lps)) == g
    ensures Run(u, all).value.status.Running? && Run(u, all).value.coordinator.duty.Over?
  {
    hide Numbers, GoodConfig, Run, Completeness.Causal, Completeness.EndsIn, Flat;
    all := RunsEnd(u, actions);
    CausalPoolSucceeds(u, all, n, g);
  }
}
