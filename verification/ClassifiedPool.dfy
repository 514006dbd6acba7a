/** The classified worker pool as a state machine: every interleaving of its workers.

A round has three all-to-all exchanges: who has stragglers, who runs what, and what comes home. The
messages carry the flags, the processes and the events; between them a worker takes its active
processes out of their slots, routes them, drains those it was handed, and puts its own back. The
coordinator opens the next round when all workers have reported.

Each action is one step of one worker or of the coordinator. A step that finds something the worker
does not expect ends in `Mismatch`; one that meets an error of the simulation ends in `Aborted`. No
guard and no result reads `prev`, the processes as the open round found them, except for slots of
other workers, which are not looked at. */
module ClassifiedPool {
  import opened Events
  import opened LogicalProcess
  import opened Executor
  import opened ClassifiedRound
  import Pool = PoolState
  import PoolInvariant
  import Exchange

  datatype Payload =
    | Presence(straggler: bool)
    | Work(items: map<nat, Lp>)
    | Return(states: map<nat, Lp>, envelopes: set<Event>)

  datatype Message = Message(round: nat, source: nat, payload: Payload)

  /** What a worker holds during a round besides its slots: the processes it took out, whether it heard
      of a straggler, the processes it was handed and their drains, the processes and the events that
      came home, and whether an event came twice. */
  datatype Local = Local(active: map<nat, Lp>, any: bool, jobs: map<nat, Lp>, done: map<nat, Drained>,
                         back: map<nat, Lp>, inbox: set<Event>, twice: bool)

  const FRESH := Local(map[], false, map[], map[], map[], {}, false)

  datatype Crew = Crew(
    open: nat, horizon: nat, over: bool, peers: seq<Exchange.Peer>, channels: seq<seq<seq<Message>>>,
    lps: seq<Option<Lp>>, locals: seq<Local>, minima: seq<Option<U64>>, status: Pool.Status, prev: seq<Lp>)

  function Wires(c: Setup): Exchange.Setup { Exchange.Setup(c.pool.workers, 3) }

  function Plain(queue: seq<Message>): (r: seq<Exchange.Message>)
    ensures |r| == |queue|
  {
    seq(|queue|, k requires 0 <= k < |queue| => Exchange.Message(queue[k].round, queue[k].source))
  }

  function PlainRow(row: seq<seq<Message>>): (r: seq<seq<Exchange.Message>>)
    ensures |r| == |row|
  {
    seq(|row|, v requires 0 <= v < |row| => Plain(row[v]))
  }

  /** The exchange without what its messages carry. */
  function Erased(s: Crew): (r: Exchange.State)
    ensures |r.channels| == |s.channels| && forall t | 0 <= t < |s.channels| :: |r.channels[t]| == |s.channels[t]|
  {
    Exchange.State(s.open, s.peers,
                   seq(|s.channels|, t requires 0 <= t < |s.channels| => PlainRow(s.channels[t])), false)
  }

  ghost predicate Shaped(c: Setup, s: Crew) {
    && |s.peers| == c.pool.workers && |s.channels| == 3
    && (forall t | 0 <= t < 3 :: |s.channels[t]| == c.pool.workers)
    && (forall w | 0 <= w < c.pool.workers :: s.peers[w].stage < 3 && s.peers[w].sent <= c.pool.workers)
    && |s.lps| == |s.prev| == |c.pool.owner| && |s.locals| == |s.minima| == c.pool.workers
  }

  /** The coordinator ends the run, or fixes the end of the next round. */
  ghost function Decide(c: Setup, s: Crew): Crew {
    var frontier := Pool.LeastOf(s.minima);
    if frontier.None? || frontier.value >= c.pool.plan.runEnd then s.(over := true)
    else s.(horizon := Horizon(frontier.value, c.pool.plan.lookahead, c.pool.plan.runEnd))
  }

  /** All workers have reported the least times of their processes. */
  ghost function Ready(c: Setup): Crew
    requires ValidSetup(c)
  {
    var n := c.pool.workers;
    Crew(
      0, 0, false, Exchange.Initial(Wires(c)).peers, seq(3, _ => seq(n, _ => [])),
      seq(|c.pool.config|, i requires 0 <= i < |c.pool.config| => Some(c.pool.config[i])),
      seq(n, _ => FRESH),
      seq(n, w requires 0 <= w < n => MinTime(Pool.OwnPending(c.pool.owner, c.pool.config, w))), Pool.Running, c.pool.config)
  }

  ghost function Initial(c: Setup): Crew
    requires ValidSetup(c)
  {
    Decide(c, Ready(c))
  }

  type Action = Exchange.Action

  ghost predicate Enabled(c: Setup, s: Crew, a: Action)
    requires ValidSetup(c) && Shaped(c, s)
  {
    && s.status.Running? && !s.over
    && match a
       case Send(w) => w < c.pool.workers && s.peers[w].sent < c.pool.workers && s.peers[w].round <= s.open
       case Read(w) => w < c.pool.workers && s.peers[w].sent == c.pool.workers && s.channels[s.peers[w].stage][w] != []
       case Open => forall w | 0 <= w < c.pool.workers :: s.peers[w].round == s.open + 1
  }

  /** Worker `w` takes its processes with an event below the horizon out of their slots. */
  ghost predicate Leaves(c: Setup, s: Crew, w: nat, i: nat)
    requires Shaped(c, s)
  {
    i < |s.lps| && c.pool.owner[i] == w && s.lps[i].Some? && Below(s.lps[i].value.pending, s.horizon)
  }

  ghost function Extract(c: Setup, s: Crew, w: nat): Crew
    requires Shaped(c, s) && w < c.pool.workers
  {
    s.(lps := seq(|s.lps|, i requires 0 <= i < |s.lps| => if Leaves(c, s, w, i) then None else s.lps[i]),
       locals := s.locals[w := s.locals[w].(
         active := map i | 0 <= i < |s.lps| && Leaves(c, s, w, i) :: s.lps[i].value)])
  }

  /** Routing divides by the dedicated count: it needs one if there is a straggler. */
  ghost predicate Routes(c: Setup, local: Local, horizon: nat) {
    forall i | i in local.active ::
      i < |c.pool.owner| && (IsStraggler(c, local.active[i], horizon) ==> local.any)
  }

  /** What worker `w` sends to worker `x` in stage `t`. */
  ghost function Content(c: Setup, local: Local, horizon: nat, t: nat, x: nat): Payload
    requires ValidSetup(c)
  {
    if t == 0 then Presence(exists i :: i in local.active && IsStraggler(c, local.active[i], horizon))
    else if t == 1 then
      Work(map i | i in local.active && Routes(c, local, horizon) &&
                   Destination(c, local.any, i, local.active[i], horizon) == x :: local.active[i])
    else
      Return(map i | i in local.done && i < |c.pool.owner| && c.pool.owner[i] == x :: local.done[i].lp,
             set i, e | i in local.done && e in local.done[i].outbox && e.target < |c.pool.owner| &&
                        c.pool.owner[e.target] == x :: e)
  }

  ghost function DoSend(c: Setup, s: Crew, w: nat): Crew
    requires ValidSetup(c) && Shaped(c, s) && Enabled(c, s, Exchange.Send(w))
  {
    var p := s.peers[w];
    var s1 := if p.stage == 0 && p.sent == 0 then Extract(c, s, w) else s;
    var message := Message(p.round, w, Content(c, s1.locals[w], s.horizon, p.stage, p.sent));
    s1.(peers := s.peers[w := p.(sent := p.sent + 1)],
        channels := s.channels[p.stage := s.channels[p.stage][p.sent := s.channels[p.stage][p.sent] + [message]]])
  }

  /** The kinds of message that the three channels of a worker carry. */
  predicate OfStage(payload: Payload, t: nat) {
    if t == 0 then payload.Presence? else if t == 1 then payload.Work? else payload.Return?
  }

  function Absorb(local: Local, payload: Payload): Local {
    match payload
    case Presence(straggler) => local.(any := local.any || straggler)
    case Work(items) => local.(jobs := local.jobs + items)
    case Return(states, envelopes) =>
      local.(back := local.back + states, inbox := local.inbox + envelopes,
             twice := local.twice || !(local.inbox !! envelopes))
  }

  /** Every process that was handed over drains and sends to known targets. */
  ghost predicate CanDrain(c: Setup, jobs: map<nat, Lp>, horizon: nat) {
    forall i | i in jobs ::
      && i < |c.pool.owner| && i <= U64_MAX && UniqueKeys(jobs[i].pending)
      && var d := DrainLp(c.pool.m, i, jobs[i], horizon, c.pool.plan.capacity);
         d.Some? && forall e | e in d.value.outbox :: e.target < |c.pool.owner|
  }

  ghost function DrainJobs(c: Setup, jobs: map<nat, Lp>, horizon: nat): map<nat, Drained>
    requires CanDrain(c, jobs, horizon)
  {
    map i | i in jobs :: DrainLp(c.pool.m, i, jobs[i], horizon, c.pool.plan.capacity).value
  }

  /** Whoever came home lives here, in an empty slot, and then no slot is empty. */
  ghost predicate CanRestore(c: Setup, s: Crew, w: nat, back: map<nat, Lp>)
    requires Shaped(c, s)
  {
    && (forall i | i in back :: i < |s.lps| && c.pool.owner[i] == w && s.lps[i].None?)
    && (forall i | 0 <= i < |s.lps| && c.pool.owner[i] == w :: i in back || s.lps[i].Some?)
  }

  /** The processes of worker `w` with those that came home in their slots. */
  ghost function Restored(c: Setup, s: Crew, w: nat, back: map<nat, Lp>): (r: seq<Lp>)
    requires Shaped(c, s) && CanRestore(c, s, w, back)
    ensures |r| == |s.lps|
  {
    seq(|s.lps|, i requires 0 <= i < |s.lps| =>
      if c.pool.owner[i] != w then s.prev[i] else if i in back then back[i] else s.lps[i].value)
  }

  /** A worker changes neither the round nor any size. */
  ghost predicate SameRound(s: Crew, r: Crew) {
    && r.open == s.open && r.horizon == s.horizon && r.over == s.over && r.prev == s.prev
    && |r.lps| == |s.lps| && |r.locals| == |s.locals| && |r.minima| == |s.minima|
  }

  /** Restores, merges what arrived, and reports the least time. */
  ghost function Finish(c: Setup, s: Crew, w: nat, local: Local): (r: Crew)
    requires Shaped(c, s) && w < c.pool.workers
    ensures SameRound(s, r)
  {
    if !CanRestore(c, s, w, local.back) then s.(status := Pool.Mismatch)
    else
      var restored := Restored(c, s, w, local.back);
      if local.twice || !Pool.Mergeable(c.pool.owner, restored, w, local.inbox, s.horizon) then s.(status := Pool.Aborted)
      else
        var merged := Pool.MergeInto(restored, local.inbox);
        var minimum := MinTime(Pool.OwnPending(c.pool.owner, merged, w));
        if minimum.Some? && minimum.value < s.horizon then s.(status := Pool.Mismatch)
        else if s.peers[w].round == U64_MAX then s.(status := Pool.Aborted)
        else
          s.(lps := seq(|s.lps|, i requires 0 <= i < |s.lps| => if c.pool.owner[i] == w then Some(merged[i]) else s.lps[i]),
             locals := s.locals[w := FRESH], minima := s.minima[w := minimum])
  }

  /** What a worker does when it has read the last message of a stage. */
  ghost function EndStage(c: Setup, s: Crew, w: nat, local: Local, t: nat): (r: Crew)
    requires Shaped(c, s) && w < c.pool.workers
    ensures SameRound(s, r)
  {
    if t == 0 then
      if Routes(c, local, s.horizon) then s.(locals := s.locals[w := local]) else s.(status := Pool.Mismatch)
    else if t == 1 then
      if !CanDrain(c, local.jobs, s.horizon) then s.(status := Pool.Aborted)
      else s.(locals := s.locals[w := local.(done := DrainJobs(c, local.jobs, s.horizon))])
    else Finish(c, s, w, local)
  }

  ghost predicate Expected(c: Setup, p: Exchange.Peer, m: Message) {
    m.round == p.round && m.source < c.pool.workers && m.source !in p.seen && OfStage(m.payload, p.stage)
  }

  ghost function DoRead(c: Setup, s: Crew, w: nat): Crew
    requires ValidSetup(c) && Shaped(c, s) && Enabled(c, s, Exchange.Read(w))
  {
    var p := s.peers[w];
    var queue := s.channels[p.stage][w];
    if !Expected(c, p, queue[0]) then s.(status := Pool.Mismatch)
    else
      var local, seen := Absorb(s.locals[w], queue[0].payload), p.seen + {queue[0].source};
      var s1 := if |seen| < c.pool.workers then s.(locals := s.locals[w := local]) else EndStage(c, s, w, local, p.stage);
      s1.(peers := s.peers[w := Exchange.Advanced(Wires(c), p, seen)],
          channels := s.channels[p.stage := s.channels[p.stage][w := queue[1..]]])
  }

  /** The processes as the next round finds them. */
  ghost function Found(lps: seq<Option<Lp>>, prev: seq<Lp>): (r: seq<Lp>)
    requires |lps| == |prev|
    ensures |r| == |lps| && forall i | 0 <= i < |lps| :: r[i] == if lps[i].Some? then lps[i].value else prev[i]
  {
    seq(|lps|, i requires 0 <= i < |lps| => if lps[i].Some? then lps[i].value else prev[i])
  }

  /** The coordinator has all reports. */
  ghost function DoOpen(c: Setup, s: Crew): Crew
    requires Shaped(c, s)
  {
    Decide(c, s.(open := s.open + 1, prev := Found(s.lps, s.prev)))
  }

  ghost function Act(c: Setup, s: Crew, a: Action): Crew
    requires ValidSetup(c) && Shaped(c, s) && Enabled(c, s, a)
  {
    match a
    case Send(w) => DoSend(c, s, w)
    case Read(w) => DoRead(c, s, w)
    case Open => DoOpen(c, s)
  }

  function ViewOf(s: Crew): View { View(s.prev, s.horizon) }

  /** What the message of stage `t` from worker `w` to worker `x` must carry. */
  ghost function Due(c: Setup, v: View, t: nat, w: nat, x: nat): Payload
    requires ValidSetup(c) && Fits(c, v)
  {
    if t == 0 then Presence(HasStraggler(c, v, w))
    else if t == 1 then Work(WorkFor(c, v, {w}, x))
    else Return(HomeFor(c, v, {w}, x), MailFor(c, v, {w}, x))
  }

  ghost predicate QueueOk(c: Setup, v: View, queue: seq<Message>, t: nat, x: nat)
    requires ValidSetup(c) && Fits(c, v)
  {
    forall k | 0 <= k < |queue| :: queue[k].payload == Due(c, v, t, queue[k].source, x)
  }

  /** The slots of worker `w` before it takes anything out. */
  ghost predicate AllIn(c: Setup, v: View, lps: seq<Option<Lp>>, w: nat)
    requires Fits(c, v) && |lps| == |v.prev|
  {
    forall i | 0 <= i < |lps| && c.pool.owner[i] == w :: lps[i] == Some(v.prev[i])
  }

  /** The slots of worker `w` while its active processes are away. */
  ghost predicate SomeOut(c: Setup, v: View, lps: seq<Option<Lp>>, w: nat)
    requires Fits(c, v) && |lps| == |v.prev|
  {
    forall i | 0 <= i < |lps| && c.pool.owner[i] == w :: lps[i] == if IsActive(v, i) then None else Some(v.prev[i])
  }

  /** The slots of worker `w` after the round: each process is home, drained and with its events. */
  ghost predicate AllHome(c: Setup, v: View, lps: seq<Option<Lp>>, w: nat)
    requires Fits(c, v) && |lps| == |v.prev|
  {
    forall i | 0 <= i < |lps| && c.pool.owner[i] == w :: lps[i] == Some(Merged(AfterAll(c, v), i))
  }

  /** The drains of what worker `w` runs. */
  ghost function DoneBy(c: Setup, v: View, w: nat): map<nat, Drained>
    requires ValidSetup(c) && Fits(c, v)
  {
    map i | i in WorkFor(c, v, Workers(c), w) :: After(c, v, i)
  }

  /** An event reached worker `w` from two workers. */
  ghost predicate CameTwice(c: Setup, v: View, w: nat)
    requires ValidSetup(c) && Fits(c, v)
  {
    exists x, y, e :: x != y && e in MailFor(c, v, {x}, w) && e in MailFor(c, v, {y}, w)
  }

  /** What worker `w` holds in stage `t` when it has read from the workers in `seen`. */
  ghost predicate LocalOk(c: Setup, v: View, t: nat, seen: set<nat>, local: Local, w: nat)
    requires ValidSetup(c) && Fits(c, v)
  {
    && local.active == ActiveOf(c, v, w)
    && (local.any <==> if t == 0 then exists x :: x in seen && HasStraggler(c, v, x) else AnyStraggler(c, v))
    && (local.jobs == if t == 0 then map[] else WorkFor(c, v, if t == 1 then seen else Workers(c), w))
    && (t < 2 ==> local.back == map[] && local.inbox == {} && !local.twice)
    && (t >= 2 ==>
          && RunsAll(c, v, w) && local.done == DoneBy(c, v, w)
          && local.back == HomeFor(c, v, seen, w) && local.inbox == MailFor(c, v, seen, w)
          && (local.twice ==> CameTwice(c, v, w)))
  }

  /** Worker `w` in its place of round `open`. */
  ghost predicate WorkerOk(c: Setup, v: View, open: nat, p: Exchange.Peer, local: Local, lps: seq<Option<Lp>>,
                           minimum: Option<U64>, w: nat)
    requires ValidSetup(c) && Fits(c, v) && |lps| == |v.prev|
  {
    if p.round > open then
      && AllHome(c, v, lps, w) && RunsAll(c, v, w) && TakesAll(c, v, w) && local == FRESH
      && minimum == MinTime(PoolInvariant.HeldAt(c.pool.owner, AfterAll(c, v), w)) && open < U64_MAX
    else if p.stage == 0 && p.sent == 0 then AllIn(c, v, lps, w) && local == FRESH
    else SomeOut(c, v, lps, w) && LocalOk(c, v, p.stage, p.seen, local, w)
  }

  /** The rounds so far were those of the executor. */
  ghost predicate Confirmed(c: Setup, v: View, open: nat)
    requires ValidSetup(c) && Fits(c, v)
  {
    && open <= U64_MAX
    && RunRounds(c.pool.m, c.pool.config, c.pool.plan, U64_MAX) == RunRounds(c.pool.m, v.prev, c.pool.plan, U64_MAX - open)
  }

  ghost predicate Decided(c: Setup, v: View) {
    && !Ended(v.prev, c.pool.plan.runEnd)
    && v.horizon == Horizon(Frontier(v.prev).value, c.pool.plan.lookahead, c.pool.plan.runEnd)
  }

  ghost predicate Steady(c: Setup, s: Crew)
    requires ValidSetup(c)
  {
    && Shaped(c, s) && Fits(c, ViewOf(s)) && Confirmed(c, ViewOf(s), s.open)
    && if s.over then
         Ended(s.prev, c.pool.plan.runEnd) && forall i | 0 <= i < |s.lps| :: s.lps[i] == Some(s.prev[i])
       else
         && Decided(c, ViewOf(s)) && Exchange.Inv(Wires(c), Erased(s))
         && (forall t, x | 0 <= t < 3 && 0 <= x < c.pool.workers :: QueueOk(c, ViewOf(s), s.channels[t][x], t, x))
         && (forall w | 0 <= w < c.pool.workers ::
               WorkerOk(c, ViewOf(s), s.open, s.peers[w], s.locals[w], s.lps, s.minima[w], w))
  }

  ghost predicate Inv(c: Setup, s: Crew)
    requires ValidSetup(c)
  {
    s.status.Aborted? || (s.status.Running? && Steady(c, s))
  }
}
