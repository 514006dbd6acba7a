/** Chains of plans and faults on the floors of streams, receiver classes and flows, and their replay:
a fresh start from the snapshot plans everything at its final capacity at once. */
module CapacityReplay {
  import opened Basics
  import opened Events
  import opened Words
  import opened CapacityLaws
  import opened CapacityFloors

  /** A stream is planned on its base, or overflowed at a capacity with a demand. */
  datatype ChannelStep = PlanStream(stream: nat, base: U64) | StreamFault(stream: nat, capacity: U64, demand: U64)

  /** How often stream `s` overflowed. */
  function Faults(steps: seq<ChannelStep>, s: nat): nat {
    if steps == [] then 0
    else
      var last := steps[|steps| - 1];
      Faults(steps[..|steps| - 1], s) + if last.StreamFault? && last.stream == s then 1 else 0
  }

  lemma FaultsNext(steps: seq<ChannelStep>, n: nat, s: nat)
    requires n < |steps|
    ensures Faults(steps[..n + 1], s) == Faults(steps[..n], s) + if steps[n].StreamFault? && steps[n].stream == s then 1 else 0
  {
    assert steps[..n + 1][..n] == steps[..n];
  }

  /** One step of a retry chain. A plan is refused if the base changed; a fault if it does not match the
      plan or cannot grow. An accepted fault plans its stream strictly higher and no other differently. */
  method StepChannels(c: ChannelCapacityFloors, step: ChannelStep) returns (ok: bool)
    modifies c
    ensures step.PlanStream? ==>
              && c.capacityByStream == old(c.capacityByStream)
              && (ok <==> old(BaseAt(c.baseByStream, step.stream)) in {None, Some(step.base)})
    ensures forall t | t != step.stream :: c.Planned(t) == old(c.Planned(t))
    ensures step.PlanStream? && old(c.Planned(step.stream)).Some? ==> c.Planned(step.stream) == old(c.Planned(step.stream))
    ensures step.StreamFault? ==> (ok <==> old(c.Planned(step.stream)) == Some(step.capacity) && step.capacity < CEILING)
    ensures step.StreamFault? && !ok ==> c.Planned(step.stream) == old(c.Planned(step.stream))
    ensures step.StreamFault? && ok ==>
              && step.capacity < GrownCapacity(step.capacity, step.demand)
              && c.Planned(step.stream) == Some(GrownCapacity(step.capacity, step.demand))
  {
    hide GrownCapacity;
    match step {
      case PlanStream(stream, base) =>
        var capacity := c.Channel(stream, base);
        ok := capacity.Some?;
      case StreamFault(stream, capacity, demand) =>
        GrowthMoves(capacity, demand, 0, None);
        var grown := GrownCapacity(capacity, demand);
        ok := grown > capacity;
        if ok {
          ok := c.Raise(stream, capacity, grown);
        }
    }
  }

  /** Runs a chain as long as it is accepted. However plans and faults of all streams are mixed, `k`
      faults of stream `s` leave it with at least 2^k * (c + 2) - 2, or the ceiling, where `c` is what it
      was planned with at first. */
  method RunChannels(c: ChannelCapacityFloors, steps: seq<ChannelStep>, ghost s: nat) returns (ok: bool)
    requires c.Planned(s).Some?
    modifies c
    ensures c.Planned(s).Some?
    ensures ok ==> c.Planned(s).value + 2 >= Min(Pow2(Faults(steps, s)) * (old(c.Planned(s).value) + 2), CEILING + 2)
  {
    hide Pow2, GrownCapacity, Faults;
    ghost var first: nat := c.Planned(s).value;
    NoFaults(steps, s, first);
    for n := 0 to |steps|
      invariant c.Planned(s).Some?
      invariant c.Planned(s).value + 2 >= Min(Pow2(Faults(steps[..n], s)) * (first + 2), CEILING + 2)
    {
      ghost var before := c.Planned(s).value;
      ok := StepChannels(c, steps[n]);
      FaultsNext(steps, n, s);
      if !ok {
        return;
      }
      if steps[n].StreamFault? && steps[n].stream == s {
        OneMoreDoubling(first, Faults(steps[..n], s), before, steps[n].demand, c.Planned(s).value);
      }
    }
    assert steps[..|steps|] == steps;
    ok := true;
  }

  lemma NoFaults(steps: seq<ChannelStep>, s: nat, first: nat)
    ensures Faults(steps[..0], s) == 0 && Pow2(0) * (first + 2) == first + 2
  {
  }

  /** Plans a fresh object on every base that `bases` records. */
  method PlanChannels(c: ChannelCapacityFloors, bases: seq<Option<U64>>)
    requires c.baseByStream == []
    modifies c
    ensures c.capacityByStream == old(c.capacityByStream)
    ensures forall s: nat :: BaseAt(c.baseByStream, s) == BaseAt(bases, s)
  {
    for s: nat := 0 to |bases|
      invariant c.capacityByStream == old(c.capacityByStream)
      invariant forall t: nat :: BaseAt(c.baseByStream, t) == if t < s then BaseAt(bases, t) else None
    {
      if bases[s].Some? {
        var capacity := c.Channel(s, bases[s].value);
      }
    }
  }

  /** Whatever plans and faults led to the object: starting from its snapshot and planning on the same
      bases gives every stream its final capacity at once, and the same snapshot again. */
  method ReplayChannels(c: ChannelCapacityFloors) returns (warm: ChannelCapacityFloors, snapshot: seq<(nat, U64)>, again: seq<(nat, U64)>)
    ensures fresh(warm) && forall s: nat :: warm.Planned(s) == c.Planned(s)
    ensures Lists(snapshot, c.capacityByStream) && again == snapshot
  {
    snapshot := c.ConvergedCapacities();
    warm := new ChannelCapacityFloors.WarmStarted(snapshot);
    SnapshotComesBack(snapshot, c.capacityByStream, warm.capacityByStream);
    PlanChannels(warm, c.baseByStream);
    again := warm.ConvergedCapacities();
    SameLists(snapshot, again, c.capacityByStream);
  }

  lemma SameLists(a: seq<(nat, U64)>, b: seq<(nat, U64)>, m: map<nat, U64>)
    requires Lists(a, m) && Lists(b, m) && ByKey(a) && ByKey(b)
    ensures a == b
  {
    forall x
      ensures x in a <==> x in b
    {
      if x in a {
        assert x.0 in m && x.1 == m[x.0];
      }
      if x in b {
        assert x.0 in m && x.1 == m[x.0];
      }
    }
    OneList(a, b);
  }

  /** A chain of retries from any warm start, then a replay from what it converged on. */
  method ChannelChainReplays(start: seq<(nat, U64)>, steps: seq<ChannelStep>)
    returns (ok: bool, chained: ChannelCapacityFloors, warm: ChannelCapacityFloors, again: bool)
    ensures fresh(chained) && fresh(warm) && again
    ensures forall s: nat :: warm.Planned(s) == chained.Planned(s)
  {
    chained := new ChannelCapacityFloors.WarmStarted(start);
    ok := true;
    for n := 0 to |steps|
      invariant fresh(chained)
    {
      if ok {
        ok := StepChannels(chained, steps[n]);
      }
    }
    var snapshot, second;
    warm, snapshot, second := ReplayChannels(chained);
    again := snapshot == second;
  }

  /** A flow's receiver or ledger is planned on its base, or overflowed; a ledger fault may bring the
      high water of every flow. */
  datatype TcpStep =
    | PlanReceiver(flow: nat, base: U64)
    | PlanLedger(flow: nat, base: U64)
    | ReceiverFault(flow: nat, capacity: U64, demand: U64)
    | LedgerFault(flow: nat, capacity: U64, demand: U64, highWater: Option<seq<U64>>)

  /** The vectors are no longer than the image has flows. */
  ghost predicate Within(t: TcpCapacityFloors, flows: nat)
    reads t
  {
    |t.receiverBase| <= flows && |t.ledgerBase| <= flows && |t.ledgerSegments| <= flows
  }

  /** What the faulting flow itself was seen to need. */
  function Observed(highWater: Option<seq<U64>>, flow: nat): Option<U64> {
    if highWater.None? then None else Some(if flow < |highWater.value| then highWater.value[flow] else 0)
  }

  /** One step of a retry chain. An accepted fault plans its flow strictly higher and lowers none. */
  method StepTcp(t: TcpCapacityFloors, step: TcpStep, flows: nat) returns (ok: bool)
    requires Within(t, flows) && step.flow < flows
    modifies t
    ensures Within(t, flows)
    ensures step.ReceiverFault? ==> (ok <==> old(t.PlannedReceiver(step.flow)) == Some(step.capacity) && step.capacity < CEILING)
    ensures step.LedgerFault? ==> (ok <==> old(t.PlannedLedger(step.flow)) == Some(step.capacity) && step.capacity < CEILING)
    ensures step.ReceiverFault? && ok ==>
              && t.PlannedReceiver(step.flow) == Some(GrownReceiver(step.capacity, step.demand))
              && step.capacity < GrownReceiver(step.capacity, step.demand)
    ensures step.LedgerFault? && ok ==>
              t.PlannedLedger(step.flow).Some? && t.PlannedLedger(step.flow).value > step.capacity
    ensures forall f: nat | old(t.PlannedReceiver(f)).Some? ::
              t.PlannedReceiver(f).Some? && t.PlannedReceiver(f).value >= old(t.PlannedReceiver(f)).value
    ensures forall f: nat | old(t.PlannedLedger(f)).Some? ::
              t.PlannedLedger(f).Some? && t.PlannedLedger(f).value >= old(t.PlannedLedger(f)).value
  {
    hide GrownWithSlack, GrownLedger, FromHighWater;
    match step {
      case PlanReceiver(flow, base) =>
        var capacity := t.Receiver(flow, base);
        ok := capacity.Some?;
      case PlanLedger(flow, base) =>
        var capacity := t.Ledger(flow, base);
        ok := capacity.Some?;
      case ReceiverFault(flow, capacity, demand) =>
        GrowthMoves(capacity, demand, TCP_RECEIVER_RETRY_SLACK, None);
        var grown := GrownReceiver(capacity, demand);
        ok := grown > capacity;
        if ok {
          ok := t.RaiseReceiver(flow, capacity, grown);
        }
      case LedgerFault(flow, capacity, demand, highWater) =>
        GrowthMoves(capacity, demand, 0, Observed(highWater, flow));
        var grown := GrownLedger(capacity, demand, Observed(highWater, flow));
        ok := grown > capacity;
        if ok {
          ok := t.RaiseLedger(flow, capacity, grown);
          if ok && highWater.Some? {
            var raised := t.RaiseFromOccupancy(highWater.value);
          }
        }
    }
  }

  /** Plans a fresh object on every base that was recorded. */
  method PlanTcp(t: TcpCapacityFloors, receivers: seq<Option<U64>>, ledgers: seq<Option<U64>>)
    requires t.receiverBase == [] && t.ledgerBase == []
    modifies t
    ensures t.receiverRanges == old(t.receiverRanges) && t.ledgerSegments == old(t.ledgerSegments)
    ensures forall f: nat :: BaseAt(t.receiverBase, f) == BaseAt(receivers, f)
    ensures forall f: nat :: BaseAt(t.ledgerBase, f) == BaseAt(ledgers, f)
  {
    for f: nat := 0 to |receivers|
      invariant t.receiverRanges == old(t.receiverRanges) && t.ledgerSegments == old(t.ledgerSegments) && t.ledgerBase == []
      invariant forall g: nat :: BaseAt(t.receiverBase, g) == if g < f then BaseAt(receivers, g) else None
    {
      if receivers[f].Some? {
        var capacity := t.Receiver(f, receivers[f].value);
      }
    }
    for f: nat := 0 to |ledgers|
      invariant t.receiverRanges == old(t.receiverRanges) && t.ledgerSegments == old(t.ledgerSegments)
      invariant forall g: nat :: BaseAt(t.receiverBase, g) == BaseAt(receivers, g)
      invariant forall g: nat :: BaseAt(t.ledgerBase, g) == if g < f then BaseAt(ledgers, g) else None
    {
      if ledgers[f].Some? {
        var capacity := t.Ledger(f, ledgers[f].value);
      }
    }
  }

  /** Whatever plans and faults led to the object: starting from its snapshot and planning on the same
      bases gives every receiver and every ledger its final capacity at once, and the same snapshot. */
  method ReplayTcp(t: TcpCapacityFloors, flows: nat)
    returns (warm: TcpCapacityFloors, receivers: seq<(nat, U64)>, ledgers: seq<(nat, U64)>, again: bool)
    requires Within(t, flows)
    ensures fresh(warm) && again
    ensures Lists(receivers, t.receiverRanges) && ListsBinding(ledgers, t.ledgerSegments)
    ensures forall f: nat :: warm.PlannedReceiver(f) == t.PlannedReceiver(f) && warm.PlannedLedger(f) == t.PlannedLedger(f)
  {
    receivers := t.ConvergedReceivers();
    ledgers := t.ConvergedLedger();
    warm := new TcpCapacityFloors.WarmStarted(receivers, ledgers, flows);
    SnapshotComesBack(receivers, t.receiverRanges, warm.receiverRanges);
    FloorsComeBack(warm, ledgers, t.ledgerSegments, flows);
    PlanTcp(warm, t.receiverBase, t.ledgerBase);
    var receivers' := warm.ConvergedReceivers();
    var ledgers' := warm.ConvergedLedger();
    SameLists(receivers, receivers', t.receiverRanges);
    SameBindings(ledgers, ledgers', t.ledgerSegments, warm.ledgerSegments);
    again := receivers == receivers' && ledgers == ledgers';
  }

  /** The ledger floors of a warm start are those of the snapshot. */
  lemma FloorsComeBack(warm: TcpCapacityFloors, pairs: seq<(nat, U64)>, v: seq<U64>, flows: nat)
    requires ListsBinding(pairs, v) && |v| <= flows && |warm.ledgerSegments| <= flows
    requires forall merged | IsMerged(pairs, merged) ::
               forall flow | 0 <= flow < flows :: warm.LedgerFloor(flow) == FloorAt(merged, flow)
    requires exists merged :: IsMerged(pairs, merged)
    ensures forall f: nat :: FloorIn(warm.ledgerSegments, f) == FloorIn(v, f)
  {
    var merged :| IsMerged(pairs, merged);
    forall f: nat
      ensures FloorIn(warm.ledgerSegments, f) == FloorIn(v, f)
    {
      LedgerComesBack(pairs, v, merged, f);
      if f < flows {
        assert warm.LedgerFloor(f) == FloorAt(merged, f);
      }
    }
  }

  lemma SameBindings(a: seq<(nat, U64)>, b: seq<(nat, U64)>, v: seq<U64>, w: seq<U64>)
    requires ListsBinding(a, v) && ListsBinding(b, w) && ByKey(a) && ByKey(b)
    requires forall f: nat :: FloorIn(v, f) == FloorIn(w, f)
    ensures a == b
  {
    forall x
      ensures x in a <==> x in b
    {
      if x in a {
        assert FloorIn(w, x.0) == x.1 != 0;
      }
      if x in b {
        assert FloorIn(v, x.0) == x.1 != 0;
      }
    }
    OneList(a, b);
  }

  /** A chain of retries from any warm start, then a replay from what it converged on. */
  method TcpChainReplays(ranges: seq<(nat, U64)>, segments: seq<(nat, U64)>, flows: nat, steps: seq<TcpStep>)
    returns (ok: bool, chained: TcpCapacityFloors, warm: TcpCapacityFloors, again: bool)
    requires forall n | 0 <= n < |steps| :: steps[n].flow < flows
    ensures fresh(chained) && fresh(warm) && again
    ensures forall f: nat :: warm.PlannedReceiver(f) == chained.PlannedReceiver(f) && warm.PlannedLedger(f) == chained.PlannedLedger(f)
  {
    chained := new TcpCapacityFloors.WarmStarted(ranges, segments, flows);
    ok := true;
    for n := 0 to |steps|
      invariant fresh(chained) && Within(chained, flows)
    {
      if ok {
        ok := StepTcp(chained, steps[n], flows);
      }
    }
    var receivers, ledgers;
    warm, receivers, ledgers, again := ReplayTcp(chained, flows);
  }
}
