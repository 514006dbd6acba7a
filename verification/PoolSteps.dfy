/** Every action of a worker keeps the invariant of the pool. */
module PoolSteps {
  import opened Events
  import opened PoolState
  import opened PoolInvariant
  import opened PoolLemmas
  import opened PoolFrames

  /** Only worker `w` moved, and it took back nothing it had sent. */
  ghost predicate WorkerActed(u: Setup, s: Pool, s': Pool, w: nat) {
    && Shaped(u, s) && Shaped(u, s') && w < u.workers && |u.owner| <= TIME_AFTER_U64_MAX
    && s'.status.Running? && s'.coordinator == s.coordinator
    && s'.history.prev == s.history.prev && s'.history.floor == s.history.floor
    && (forall v | 0 <= v < u.workers && v != w :: OtherKept(u, s, s', v))
    && (forall o | 0 <= o < u.workers && HasSent(s.workers[w], s.coordinator.round, o) ::
          && HasSent(s'.workers[w], s.coordinator.round, o)
          && Agree(u.owner, s.history.now, s'.history.now, {w}))
  }

  ghost predicate OtherKept(u: Setup, s: Pool, s': Pool, v: nat)
    requires Shaped(u, s) && Shaped(u, s') && v < u.workers
  {
    && s'.workers[v] == s.workers[v] && s'.commands[v] == s.commands[v] && s'.replies[v] == s.replies[v]
    && s'.history.merged[v] == s.history.merged[v]
    && SameOwn(u.owner, s.lps, s'.lps, v)
    && Agree(u.owner, s.history.now, s'.history.now, {v})
  }

  lemma MergedAgree(u: Setup, s: Pool, s': Pool, w: nat, v: nat)
    requires ValidSetup(u) && WorkerActed(u, s, s', w) && v < u.workers && v != w && WorkerOk(u, s, v)
    requires ModeOf(s.workers[v], s.coordinator.round) == Ahead
    ensures Agree(u.owner, s.history.now, s'.history.now, s.history.merged[v])
  {
    var from := s.history.merged[v];
    forall j | 0 <= j < |u.owner| && u.owner[j] in from
      ensures s.history.now[j] == s'.history.now[j]
    {
      var x := u.owner[j];
      assert HasSent(s.workers[x], s.coordinator.round, v);
      assert x == w || OtherKept(u, s, s', x);
      assert Agree(u.owner, s.history.now, s'.history.now, {x});
    }
  }

  lemma OthersObey(u: Setup, s: Pool, s': Pool, w: nat, v: nat)
    requires ValidSetup(u) && WorkerActed(u, s, s', w) && v < u.workers && v != w && WorkerOk(u, s, v)
    ensures Obeys(u, s'.coordinator.round, s'.history, s'.lps, s'.workers[v], s'.commands[v], s'.replies[v], v,
                  OrderOf(s'.coordinator, v))
  {
    hide Obeys, Agree, SameOwn, MailIsDue, ValidSetup;
    assert OtherKept(u, s, s', v);
    if ModeOf(s.workers[v], s.coordinator.round) == Ahead {
      MergedAgree(u, s, s', w, v);
    }
    ObeysFrame(u, s.coordinator.round, s.history, s'.history, s.lps, s'.lps, s.workers[v], s.commands[v], s.replies[v],
               v, OrderOf(s.coordinator, v));
  }

  /** The new mail of a worker that did not act, if the one that acted sent it nothing. */
  lemma OthersNewMail(u: Setup, s: Pool, s': Pool, w: nat, v: nat)
    requires ValidSetup(u) && WorkerActed(u, s, s', w) && v < u.workers && v != w
    requires HasSent(s.workers[w], s.coordinator.round, v) == HasSent(s'.workers[w], s.coordinator.round, v)
    ensures NewMail(u, s.coordinator.round, s.history, s.workers, v) ==
            NewMail(u, s.coordinator.round, s'.history, s'.workers, v)
  {
    hide Agree, SameOwn, NewMail;
    forall x | 0 <= x < u.workers
      ensures HasSent(s.workers[x], s.coordinator.round, v) == HasSent(s'.workers[x], s.coordinator.round, v)
      ensures HasSent(s.workers[x], s.coordinator.round, v) ==> Agree(u.owner, s.history.now, s'.history.now, {x})
    {
      assert x == w || OtherKept(u, s, s', x);
    }
    assert OtherKept(u, s, s', v);
    NewMailFrame(u, s.coordinator.round, s.history, s'.history, s.workers, s'.workers, v);
  }

  lemma OthersOldMail(u: Setup, s: Pool, s': Pool, w: nat, v: nat)
    requires ValidSetup(u) && WorkerActed(u, s, s', w) && v < u.workers && v != w
    ensures OldMail(u, s.coordinator.round, s.history, s.workers, v) ==
            OldMail(u, s.coordinator.round, s'.history, s'.workers, v)
  {
    hide Agree, SameOwn, OldMail;
    assert OtherKept(u, s, s', v);
    OldMailFrame(u, s.coordinator.round, s.history, s'.history, s.workers, s'.workers, v);
  }

  lemma OthersWereSent(u: Setup, s: Pool, s': Pool, w: nat, v: nat)
    requires ValidSetup(u) && WorkerActed(u, s, s', w) && v < u.workers && v != w && WorkerOk(u, s, v)
    ensures ModeOf(s'.workers[v], s.coordinator.round) == Ahead ==>
              forall x | x in s'.history.merged[v] :: x < u.workers && HasSent(s'.workers[x], s.coordinator.round, v)
  {
    hide Agree, SameOwn, Obeys, MailIsDue;
    assert OtherKept(u, s, s', v);
    if ModeOf(s.workers[v], s.coordinator.round) == Ahead {
      forall x | x in s.history.merged[v]
        ensures x < u.workers && HasSent(s'.workers[x], s.coordinator.round, v)
      {
        assert HasSent(s.workers[x], s.coordinator.round, v);
        assert x == w || OtherKept(u, s, s', x);
      }
    }
  }

  lemma OthersOk(u: Setup, s: Pool, s': Pool, w: nat, v: nat)
    requires ValidSetup(u) && WorkerActed(u, s, s', w) && v < u.workers && v != w && WorkerOk(u, s, v)
    requires s'.inboxes[v] == s.inboxes[v]
    requires HasSent(s.workers[w], s.coordinator.round, v) == HasSent(s'.workers[w], s.coordinator.round, v)
    ensures WorkerOk(u, s', v)
  {
    hide Agree, SameOwn, Obeys, NewMail, OldMail, HasSent;
    assert OtherKept(u, s, s', v);
    OthersObey(u, s, s', w, v);
    OthersNewMail(u, s, s', w, v);
    OthersOldMail(u, s, s', w, v);
    OthersWereSent(u, s, s', w, v);
  }

  /** A worker that sends nothing keeps the invariant if it keeps its own part. */
  lemma ActedKeeps(u: Setup, s: Pool, s': Pool, w: nat)
    requires ValidSetup(u) && Shaped(u, s) && Steady(u, s) && WorkerActed(u, s, s', w) && WorkerOk(u, s', w)
    requires forall v | 0 <= v < u.workers && v != w ::
               && s'.inboxes[v] == s.inboxes[v]
               && HasSent(s.workers[w], s.coordinator.round, v) == HasSent(s'.workers[w], s.coordinator.round, v)
    ensures Steady(u, s')
  {
    hide WorkerOk, WorkerActed, Decided, Confirmed, KnownTargets, HasSent, ValidSetup;
    SameFrame(u, s, s', w);
    forall v | 0 <= v < u.workers
      ensures WorkerOk(u, s', v)
    {
      assert WorkerOk(u, s, v) by {
        var it := s.workers[v];
      }
      if v != w {
        OthersOk(u, s, s', w, v);
      }
    }
  }

  lemma SameFrame(u: Setup, s: Pool, s': Pool, w: nat)
    requires WorkerActed(u, s, s', w)
    ensures Shaped(u, s')
    ensures s'.coordinator == s.coordinator && s'.history.prev == s.history.prev && s'.history.floor == s.history.floor
  {
  }
}
