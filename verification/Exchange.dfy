/** The all-to-all exchanges of a classified round, over all interleavings.

In each stage of a round (who has stragglers, who runs what, what comes back) every worker sends one
message to every worker, itself included, and goes on when it has read one from each. The
coordinator opens the next round when all workers have completed the last. */
module Exchange {
  import opened Basics
  import opened Events

  datatype Message = Message(round: nat, source: nat)

  /** Where a worker is: its round and stage, how many messages of the stage it has sent, and whose it
      has read. */
  datatype Peer = Peer(round: nat, stage: nat, sent: nat, seen: set<nat>)

  datatype Setup = Setup(workers: nat, stages: nat)

  /** `channels[s][v]` holds the messages of stage `s` that worker `v` has not read. */
  datatype State = State(open: nat, peers: seq<Peer>, channels: seq<seq<seq<Message>>>, mismatch: bool)

  ghost predicate ValidSetup(u: Setup) { u.workers > 0 && u.stages > 0 }

  ghost predicate Shaped(u: Setup, s: State) {
    && |s.peers| == u.workers && |s.channels| == u.stages
    && (forall t | 0 <= t < u.stages :: |s.channels[t]| == u.workers)
    && (forall w | 0 <= w < u.workers :: s.peers[w].stage < u.stages && s.peers[w].sent <= u.workers)
  }

  ghost function Initial(u: Setup): State {
    State(0, seq(u.workers, _ => Peer(0, 0, 0, {})), seq(u.stages, _ => seq(u.workers, _ => [])), false)
  }

  datatype Action = Send(w: nat) | Read(w: nat) | Open

  ghost predicate Enabled(u: Setup, s: State, a: Action)
    requires ValidSetup(u) && Shaped(u, s)
  {
    && !s.mismatch
    && match a
       case Send(w) => w < u.workers && s.peers[w].sent < u.workers && s.peers[w].round <= s.open
       case Read(w) => w < u.workers && s.peers[w].sent == u.workers && s.channels[s.peers[w].stage][w] != []
       case Open => forall w | 0 <= w < u.workers :: s.peers[w].round == s.open + 1
  }

  function Put(channels: seq<seq<seq<Message>>>, t: nat, v: nat, queue: seq<Message>): seq<seq<seq<Message>>>
    requires t < |channels| && v < |channels[t]|
  {
    channels[t := channels[t][v := queue]]
  }

  /** The worker after it has read from the workers in `seen`. */
  function Advanced(u: Setup, p: Peer, seen: set<nat>): Peer {
    if |seen| < u.workers then p.(seen := seen)
    else if p.stage + 1 < u.stages then Peer(p.round, p.stage + 1, 0, {})
    else Peer(p.round + 1, 0, 0, {})
  }

  ghost function Act(u: Setup, s: State, a: Action): State
    requires ValidSetup(u) && Shaped(u, s) && Enabled(u, s, a)
  {
    match a
    case Send(w) =>
      var p := s.peers[w];
      s.(peers := s.peers[w := p.(sent := p.sent + 1)],
         channels := Put(s.channels, p.stage, p.sent, s.channels[p.stage][p.sent] + [Message(p.round, w)]))
    case Read(w) =>
      var p := s.peers[w];
      var queue := s.channels[p.stage][w];
      if queue[0].round != p.round || queue[0].source >= u.workers || queue[0].source in p.seen then s.(mismatch := true)
      else
        s.(peers := s.peers[w := Advanced(u, p, p.seen + {queue[0].source})],
           channels := Put(s.channels, p.stage, w, queue[1..]))
    case Open => s.(open := s.open + 1)
  }

  /** Worker `p` has sent its message of stage `t` to worker `v` in round `r`. */
  predicate HasSent(p: Peer, r: nat, t: nat, v: nat) {
    p.round > r || p.stage > t || (p.stage == t && p.sent > v)
  }

  /** Worker `p` has read the message of stage `t` from worker `w` in round `r`. */
  predicate HasRead(p: Peer, r: nat, t: nat, w: nat) {
    p.round > r || p.stage > t || (p.stage == t && w in p.seen)
  }

  /** The messages that must be in the channel of stage `t` to worker `v`. */
  ghost function Due(u: Setup, r: nat, peers: seq<Peer>, t: nat, v: nat): set<Message>
    requires |peers| == u.workers && v < u.workers
  {
    set w | 0 <= w < u.workers && HasSent(peers[w], r, t, v) && !HasRead(peers[v], r, t, w) :: Message(r, w)
  }

  ghost predicate ChannelOk(u: Setup, r: nat, peers: seq<Peer>, queue: seq<Message>, t: nat, v: nat)
    requires |peers| == u.workers && v < u.workers
  {
    multiset(queue) == multiset(Due(u, r, peers, t, v))
  }

  ghost predicate PeerOk(u: Setup, r: nat, p: Peer) {
    && (p.round == r || p == Peer(r + 1, 0, 0, {}))
    && p.stage < u.stages && p.sent <= u.workers
    && (forall w | w in p.seen :: w < u.workers) && |p.seen| < u.workers
    && (p.sent < u.workers ==> p.seen == {})
  }

  /** What was read had been sent. */
  ghost predicate ReadWasSent(u: Setup, r: nat, peers: seq<Peer>, t: nat, v: nat)
    requires |peers| == u.workers && v < u.workers
  {
    forall w | 0 <= w < u.workers && HasRead(peers[v], r, t, w) :: HasSent(peers[w], r, t, v)
  }

  ghost predicate Inv(u: Setup, s: State)
    requires ValidSetup(u)
  {
    && Shaped(u, s) && !s.mismatch
    && (forall w | 0 <= w < u.workers :: PeerOk(u, s.open, s.peers[w]))
    && (forall t, v | 0 <= t < u.stages && 0 <= v < u.workers ::
          ChannelOk(u, s.open, s.peers, s.channels[t][v], t, v) && ReadWasSent(u, s.open, s.peers, t, v))
  }

  lemma GetChannel(u: Setup, s: State, t: nat, v: nat)
    requires ValidSetup(u) && Inv(u, s) && t < u.stages && v < u.workers
    ensures ChannelOk(u, s.open, s.peers, s.channels[t][v], t, v) && ReadWasSent(u, s.open, s.peers, t, v)
  {
    var it := s.channels[t][v];
  }

  /** The head of a channel that a worker reads is due: of this round, from a worker it has not read. */
  lemma HeadIsDue(u: Setup, s: State, w: nat)
    requires ValidSetup(u) && Inv(u, s) && Enabled(u, s, Read(w))
    ensures var p := s.peers[w];
            var m := s.channels[p.stage][w][0];
            && p.round == s.open && m.round == s.open && m.source < u.workers && m.source !in p.seen
            && m in Due(u, s.open, s.peers, p.stage, w)
  {
    hide ReadWasSent;
    var p := s.peers[w];
    GetChannel(u, s, p.stage, w);
    assert PeerOk(u, s.open, p);
    var queue := s.channels[p.stage][w];
    assert queue[0] in multiset(queue);
  }

  lemma AddDue(due: set<Message>, queue: seq<Message>, m: Message)
    requires multiset(queue) == multiset(due) && m !in due
    ensures multiset(queue + [m]) == multiset(due + {m})
  {
  }

  lemma DropDue(due: set<Message>, queue: seq<Message>)
    requires multiset(queue) == multiset(due) && queue != []
    ensures queue[0] in due && multiset(queue[1..]) == multiset(due - {queue[0]})
  {
    assert queue == [queue[0]] + queue[1..];
    assert queue[0] in multiset(queue);
    assert multiset(due) == multiset{queue[0]} + multiset(due - {queue[0]});
    assert multiset(queue[1..]) == multiset{queue[0]} + multiset(queue[1..]) - multiset{queue[0]};
  }

  /** What is due after a worker moved from `p` to `q`, where the move tells nothing new to `v`. */
  lemma DueSame(u: Setup, r: nat, peers: seq<Peer>, w: nat, q: Peer, t: nat, v: nat)
    requires |peers| == u.workers && v < u.workers && w < u.workers
    requires HasSent(peers[w], r, t, v) == HasSent(q, r, t, v)
    requires w == v ==> forall x | 0 <= x < u.workers :: HasRead(peers[w], r, t, x) == HasRead(q, r, t, x)
    ensures Due(u, r, peers[w := q], t, v) == Due(u, r, peers, t, v)
    ensures ReadWasSent(u, r, peers, t, v) ==> ReadWasSent(u, r, peers[w := q], t, v)
  {
    hide HasSent, HasRead;
  }

  lemma DueMore(u: Setup, r: nat, peers: seq<Peer>, w: nat, q: Peer, t: nat, v: nat)
    requires |peers| == u.workers && v < u.workers && w < u.workers
    requires !HasSent(peers[w], r, t, v) && HasSent(q, r, t, v) && !HasRead(peers[v], r, t, w)
    requires w == v ==> forall x | 0 <= x < u.workers :: HasRead(peers[w], r, t, x) == HasRead(q, r, t, x)
    ensures Message(r, w) !in Due(u, r, peers, t, v)
    ensures Due(u, r, peers[w := q], t, v) == Due(u, r, peers, t, v) + {Message(r, w)}
    ensures ReadWasSent(u, r, peers, t, v) ==> ReadWasSent(u, r, peers[w := q], t, v)
  {
    hide HasSent, HasRead;
  }

  lemma DueLess(u: Setup, r: nat, peers: seq<Peer>, v: nat, q: Peer, t: nat, source: nat)
    requires |peers| == u.workers && v < u.workers && source < u.workers && HasSent(peers[source], r, t, v)
    requires HasSent(peers[v], r, t, v) == HasSent(q, r, t, v)
    requires forall x | 0 <= x < u.workers :: HasRead(q, r, t, x) == (HasRead(peers[v], r, t, x) || x == source)
    ensures Due(u, r, peers[v := q], t, v) == Due(u, r, peers, t, v) - {Message(r, source)}
    ensures ReadWasSent(u, r, peers, t, v) ==> ReadWasSent(u, r, peers[v := q], t, v)
  {
    hide HasSent, HasRead;
  }

  lemma SendChannel(u: Setup, s: State, w: nat, t: nat, v: nat)
    requires ValidSetup(u) && Inv(u, s) && Enabled(u, s, Send(w)) && t < u.stages && v < u.workers
    ensures var s' := Act(u, s, Send(w));
            && Shaped(u, s')
            && ChannelOk(u, s.open, s'.peers, s'.channels[t][v], t, v) && ReadWasSent(u, s.open, s'.peers, t, v)
  {
    hide Due, ReadWasSent;
    var p := s.peers[w];
    assert PeerOk(u, s.open, p);
    var q, r := p.(sent := p.sent + 1), s.open;
    GetChannel(u, s, t, v);
    if t == p.stage && v == p.sent {
      NotReadYet(u, s, w, t, v);
      DueMore(u, r, s.peers, w, q, t, v);
      AddDue(Due(u, r, s.peers, t, v), s.channels[t][v], Message(r, w));
    } else {
      DueSame(u, r, s.peers, w, q, t, v);
    }
  }

  lemma NotReadYet(u: Setup, s: State, w: nat, t: nat, v: nat)
    requires ValidSetup(u) && Inv(u, s) && w < u.workers && t < u.stages && v < u.workers
    requires !HasSent(s.peers[w], s.open, t, v)
    ensures !HasRead(s.peers[v], s.open, t, w)
  {
    GetChannel(u, s, t, v);
  }

  lemma SendKeeps(u: Setup, s: State, w: nat)
    requires ValidSetup(u) && Inv(u, s) && Enabled(u, s, Send(w))
    ensures Inv(u, Act(u, s, Send(w)))
  {
    hide ChannelOk, ReadWasSent;
    var s' := Act(u, s, Send(w));
    assert PeerOk(u, s.open, s.peers[w]);
    forall t, v | 0 <= t < u.stages && 0 <= v < u.workers
      ensures ChannelOk(u, s.open, s'.peers, s'.channels[t][v], t, v) && ReadWasSent(u, s.open, s'.peers, t, v)
    {
      SendChannel(u, s, w, t, v);
    }
  }

  lemma AllRead(u: Setup, seen: set<nat>, w: nat)
    requires (forall x | x in seen :: x < u.workers) && |seen| >= u.workers && w < u.workers
    ensures w in seen
  {
    if w !in seen {
      AtMost(seen + {w}, u.workers);
    }
  }

  /** Reading one message changes what a worker has read by just that, even if it completes a stage. */
  lemma AdvanceReads(u: Setup, r: nat, p: Peer, source: nat, t: nat, x: nat)
    requires ValidSetup(u) && PeerOk(u, r, p) && p.round == r && p.sent == u.workers && source < u.workers
    requires t < u.stages && x < u.workers
    ensures var q := Advanced(u, p, p.seen + {source});
            && PeerOk(u, r, q)
            && HasRead(q, r, t, x) == (HasRead(p, r, t, x) || (t == p.stage && x == source))
            && HasSent(q, r, t, x) == HasSent(p, r, t, x)
  {
    if |p.seen + {source}| >= u.workers {
      AllRead(u, p.seen + {source}, x);
    }
  }

  lemma ReadChannel(u: Setup, s: State, w: nat, t: nat, v: nat)
    requires ValidSetup(u) && Inv(u, s) && Enabled(u, s, Read(w)) && t < u.stages && v < u.workers
    ensures var s' := Act(u, s, Read(w));
            && !s'.mismatch && Shaped(u, s')
            && ChannelOk(u, s.open, s'.peers, s'.channels[t][v], t, v) && ReadWasSent(u, s.open, s'.peers, t, v)
  {
    hide Due, ReadWasSent, HasRead, HasSent, Advanced;
    HeadIsDue(u, s, w);
    var p, r := s.peers[w], s.open;
    assert PeerOk(u, r, p);
    var source := s.channels[p.stage][w][0].source;
    var q := Advanced(u, p, p.seen + {source});
    GetChannel(u, s, t, v);
    AdvanceReads(u, r, p, source, t, v);
    forall x | 0 <= x < u.workers
      ensures HasRead(q, r, t, x) == (HasRead(p, r, t, x) || (t == p.stage && x == source))
    {
      AdvanceReads(u, r, p, source, t, x);
    }
    if t == p.stage && v == w {
      SentByDue(u, r, s.peers, t, w, source);
      DueLess(u, r, s.peers, w, q, t, source);
      DropDue(Due(u, r, s.peers, t, w), s.channels[t][w]);
    } else {
      DueSame(u, r, s.peers, w, q, t, v);
    }
  }

  lemma SentByDue(u: Setup, r: nat, peers: seq<Peer>, t: nat, v: nat, source: nat)
    requires |peers| == u.workers && v < u.workers && source < u.workers && Message(r, source) in Due(u, r, peers, t, v)
    ensures HasSent(peers[source], r, t, v)
  {
    hide HasSent, HasRead;
  }

  lemma ReadKeeps(u: Setup, s: State, w: nat)
    requires ValidSetup(u) && Inv(u, s) && Enabled(u, s, Read(w))
    ensures Inv(u, Act(u, s, Read(w)))
  {
    hide ChannelOk, ReadWasSent;
    var s' := Act(u, s, Read(w));
    HeadIsDue(u, s, w);
    var p := s.peers[w];
    assert PeerOk(u, s.open, p);
    AdvanceReads(u, s.open, p, s.channels[p.stage][w][0].source, 0, 0);
    forall t, v | 0 <= t < u.stages && 0 <= v < u.workers
      ensures ChannelOk(u, s.open, s'.peers, s'.channels[t][v], t, v) && ReadWasSent(u, s.open, s'.peers, t, v)
    {
      ReadChannel(u, s, w, t, v);
    }
  }

  lemma OpenKeeps(u: Setup, s: State)
    requires ValidSetup(u) && Inv(u, s) && Enabled(u, s, Open)
    ensures Inv(u, Act(u, s, Open))
  {
    forall t, v | 0 <= t < u.stages && 0 <= v < u.workers
      ensures ChannelOk(u, s.open + 1, s.peers, s.channels[t][v], t, v) && ReadWasSent(u, s.open + 1, s.peers, t, v)
    {
      GetChannel(u, s, t, v);
      forall w | 0 <= w < u.workers
        ensures HasRead(s.peers[v], s.open, t, w) && !HasSent(s.peers[w], s.open + 1, t, v) && !HasRead(s.peers[v], s.open + 1, t, w)
      {
        assert PeerOk(u, s.open, s.peers[w]) && PeerOk(u, s.open, s.peers[v]);
      }
      assert Due(u, s.open, s.peers, t, v) == {};
      assert Due(u, s.open + 1, s.peers, t, v) == {};
    }
    forall w | 0 <= w < u.workers
      ensures PeerOk(u, s.open + 1, s.peers[w])
    {
      assert PeerOk(u, s.open, s.peers[w]);
    }
  }

  ghost function Run(u: Setup, actions: seq<Action>): Option<State>
    requires ValidSetup(u)
  {
    if actions == [] then Some(Initial(u))
    else
      var a := actions[|actions| - 1];
      match Run(u, actions[..|actions| - 1])
      case None => None
      case Some(s) => if Shaped(u, s) && Enabled(u, s, a) then Some(Act(u, s, a)) else None
  }

  lemma InitialInv(u: Setup)
    requires ValidSetup(u)
    ensures Inv(u, Initial(u))
  {
    var s := Initial(u);
    forall t, v | 0 <= t < u.stages && 0 <= v < u.workers
      ensures ChannelOk(u, 0, s.peers, s.channels[t][v], t, v) && ReadWasSent(u, 0, s.peers, t, v)
    {
      assert Due(u, 0, s.peers, t, v) == {};
    }
  }

  lemma ActKeeps(u: Setup, s: State, a: Action)
    requires ValidSetup(u) && Inv(u, s) && Enabled(u, s, a)
    ensures Inv(u, Act(u, s, a))
  {
    hide Inv, Act, Enabled;
    match a
    case Send(w) => SendKeeps(u, s, w);
    case Read(w) => ReadKeeps(u, s, w);
    case Open => OpenKeeps(u, s);
  }

  /** In no run does a worker read a message of another round, or two from one worker in a stage. */
  lemma {:induction false} RunsKeepInvariant(u: Setup, actions: seq<Action>)
    requires ValidSetup(u) && Run(u, actions).Some?
    ensures Inv(u, Run(u, actions).value) && !Run(u, actions).value.mismatch
  {
    hide Act, Initial, Enabled, ChannelOk, ReadWasSent, PeerOk;
    if actions == [] {
      InitialInv(u);
    } else {
      RunsKeepInvariant(u, actions[..|actions| - 1]);
      ActKeeps(u, Run(u, actions[..|actions| - 1]).value, actions[|actions| - 1]);
    }
  }

  /** A worker leaves a stage only after it has read one message from every worker, all of this round. */
  lemma LeavesWithAll(u: Setup, actions: seq<Action>, w: nat, v: nat)
    requires ValidSetup(u) && Run(u, actions).Some? && w < u.workers && v < u.workers
    requires Shaped(u, Run(u, actions).value) && Enabled(u, Run(u, actions).value, Read(w))
    ensures var s := Run(u, actions).value;
            var s' := Act(u, s, Read(w));
            && |s'.peers| == u.workers
            && (s'.peers[w].stage != s.peers[w].stage || s'.peers[w].round != s.peers[w].round ==>
                v in s.peers[w].seen + {s.channels[s.peers[w].stage][w][0].source})
  {
    hide Run, ChannelOk, ReadWasSent;
    RunsKeepInvariant(u, actions);
    var s := Run(u, actions).value;
    HeadIsDue(u, s, w);
    assert PeerOk(u, s.open, s.peers[w]);
    var seen := s.peers[w].seen + {s.channels[s.peers[w].stage][w][0].source};
    if |seen| >= u.workers {
      AllRead(u, seen, v);
    }
  }

  /** The least stage that some worker of the open round is in. */
  lemma {:induction false} Hindmost(u: Setup, s: State, n: nat) returns (w: nat)
    requires ValidSetup(u) && Shaped(u, s) && n <= u.workers
    requires exists v :: 0 <= v < n && s.peers[v].round == s.open
    ensures w < n && s.peers[w].round == s.open
    ensures forall v | 0 <= v < n && s.peers[v].round == s.open :: s.peers[w].stage <= s.peers[v].stage
  {
    if exists v :: 0 <= v < n - 1 && s.peers[v].round == s.open {
      w := Hindmost(u, s, n - 1);
      if s.peers[n - 1].round == s.open && s.peers[n - 1].stage < s.peers[w].stage {
        w := n - 1;
      }
    } else {
      w := n - 1;
    }
  }

  /** The exchanges are never stuck: some worker can send or read, or the next round can open. */
  lemma NeverStuck(u: Setup, actions: seq<Action>) returns (a: Action)
    requires ValidSetup(u) && Run(u, actions).Some?
    ensures Run(u, actions + [a]).Some?
  {
    hide Inv;
    RunsKeepInvariant(u, actions);
    var s := Run(u, actions).value;
    a := SomeStep(u, s);
    assert (actions + [a])[..|actions|] == actions;
  }

  lemma SomeStep(u: Setup, s: State) returns (a: Action)
    requires ValidSetup(u) && Inv(u, s)
    ensures Shaped(u, s) && Enabled(u, s, a)
  {
    hide ChannelOk, ReadWasSent;
    if forall w | 0 <= w < u.workers :: s.peers[w].round == s.open + 1 {
      a := Open;
    } else {
      var x :| 0 <= x < u.workers && s.peers[x].round != s.open + 1;
      assert PeerOk(u, s.open, s.peers[x]);
      var w := Hindmost(u, s, u.workers);
      var p := s.peers[w];
      assert PeerOk(u, s.open, p);
      if p.sent < u.workers {
        a := Send(w);
      } else if s.channels[p.stage][w] != [] {
        a := Read(w);
      } else {
        var v := NotSent(u, s, w);
        a := Send(v);
      }
    }
  }

  /** If nothing is left to read, some worker has yet to send. */
  lemma NotSent(u: Setup, s: State, w: nat) returns (v: nat)
    requires ValidSetup(u) && Inv(u, s) && w < u.workers && s.peers[w].round == s.open
    requires s.channels[s.peers[w].stage][w] == []
    requires forall v | 0 <= v < u.workers && s.peers[v].round == s.open :: s.peers[w].stage <= s.peers[v].stage
    ensures v < u.workers && s.peers[v].round == s.open && s.peers[v].sent < u.workers
  {
    hide ReadWasSent;
    var p := s.peers[w];
    GetChannel(u, s, p.stage, w);
    assert PeerOk(u, s.open, p);
    v := Unread(u, p.seen, u.workers);
    assert PeerOk(u, s.open, s.peers[v]);
    SentIsDue(u, s.open, s.peers, p.stage, w, v);
    NothingDue(Due(u, s.open, s.peers, p.stage, w), s.channels[p.stage][w]);
  }

  lemma SentIsDue(u: Setup, r: nat, peers: seq<Peer>, t: nat, v: nat, source: nat)
    requires |peers| == u.workers && v < u.workers && source < u.workers
    ensures HasSent(peers[source], r, t, v) && !HasRead(peers[v], r, t, source) ==> Message(r, source) in Due(u, r, peers, t, v)
  {
    hide HasSent, HasRead;
  }

  lemma NothingDue(due: set<Message>, queue: seq<Message>)
    requires multiset(queue) == multiset(due) && queue == []
    ensures due == {}
  {
    assert forall m | m in due :: m in multiset(due);
  }

  lemma {:induction false} Unread(u: Setup, seen: set<nat>, n: nat) returns (v: nat)
    requires |seen| < n && forall x | x in seen :: x < n
    ensures v < n && v !in seen
  {
    if n - 1 !in seen {
      v := n - 1;
    } else {
      v := Unread(u, seen - {n - 1}, n - 1);
    }
  }
}
