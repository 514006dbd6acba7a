/** The check that keeps the plain round kernel off plans that need a mechanism it lacks. */
module PlainKernel {
  import opened Basics
  import opened Events
  import opened Planes
  import opened EventRecord

  const GENERATOR_WORDS: nat := 43
  const NODE_WORDS: nat := 11
  const FLOW_WORDS: nat := 6
  const QUEUE_META_WORDS: nat := 5
  const RECEIVER_WORDS: nat := 7

  const DCQCN: U64 := 3
  const ROCE: U64 := 4
  const ROCE_MARKER: U64 := 4
  const NO_RECORD: Record := [0, 0, 0, 0, 0, 0, 0, 0, 0, 0, 0, 0, 0, 0]

  /** A plane has an address for each word. */
  type Plane = s: seq<U64> | |s| <= U64_MAX witness []

  /** The planes of an uploaded plan. Streams are channels first, then services, then generators. */
  datatype Plan = Plan(
    stageOffset: U64, pfcOffset: U64, roceOffset: U64, receiverOffset: U64,
    nodeCount: U64, flowCount: U64, streamCount: U64, serviceBase: U64, generatorBase: U64,
    generators: Plane, flows: Plane, transport: Plane, heapMeta: Plane, heapRecords: Plane,
    streamMeta: Plane, streamRecords: Plane, queueMeta: Plane, queueRecords: Plane,
    nodeState: Plane, inService: Plane)

  datatype Arena = FallbackHeap | ChannelStream | GeneratorStream | WaitingQueue | InService

  datatype Refusal =
    | StageRegion
    | PfcRegion
    | RoceRegion
    | DcqcnGenerator(flow: U64, owner: U64)
    | RoceGenerator(flow: U64, owner: U64)
    | DcqcnReceiver(flow: U64, target: U64)
    | RoceReceiver(flow: U64, target: U64)
    | MechanismPacket(arena: Arena, lp: Option<U64>, kind: U64)
    | MalformedPlan

  predicate Within(plane: seq<U64>, start: nat, length: nat) { start + length <= |plane| }

  /** The packet kind in a word, without the flag in its top bit. */
  function Kind(word: U64): U64 { word % 0x8000_0000_0000_0000 }

  /** PFC frames, congestion notifications, RoCE packets and stage notifications. */
  predicate Mechanism(word: U64) { Kind(word) == 4 || Kind(word) == 5 || 7 <= Kind(word) <= 11 }

  /** The words of a stream record, by class. */
  function StreamWords(p: Plan, stream: nat): nat { StoredWords(StreamClass(stream, p.serviceBase, p.generatorBase)) }

  /** The packet kind of the stream record that starts at `start`. */
  function StreamKind(p: Plan, stream: nat, start: nat): U64
    requires Within(p.streamRecords, start, StreamWords(p, stream))
  {
    var c := StreamClass(stream, p.serviceBase, p.generatorBase);
    Decode(p.streamRecords[start..start + StoredWords(c)], c, 0, 0, NO_RECORD)[10]
  }

  predicate GeneratorClean(p: Plan, flow: nat) {
    var row := flow * GENERATOR_WORDS;
    && Within(p.generators, row, GENERATOR_WORDS)
    && (p.generators[row] != 0 ==> p.generators[row + 11] != DCQCN && p.generators[row + 11] != ROCE)
  }

  predicate ReceiverClean(p: Plan, flow: nat) {
    var row := p.receiverOffset + flow * RECEIVER_WORDS;
    Within(p.transport, row, 1) && p.transport[row] < 2
  }

  /** A full record can be read and is of no mechanism. */
  predicate RecordClean(plane: seq<U64>, slot: nat) {
    Within(plane, slot * EVENT_WORDS, EVENT_WORDS) && !Mechanism(plane[slot * EVENT_WORDS + 10])
  }

  /** Slot `slot` of the fallback heap holds a record of `lp`. */
  predicate InHeap(p: Plan, lp: nat, slot: nat)
    requires Within(p.heapMeta, lp * ARENA_META_WORDS, ARENA_META_WORDS)
  {
    var from: nat, count: nat := p.heapMeta[lp * ARENA_META_WORDS], p.heapMeta[lp * ARENA_META_WORDS + 3];
    from <= slot < from + count
  }

  ghost predicate HeapClean(p: Plan, lp: nat) {
    var meta := lp * ARENA_META_WORDS;
    && Within(p.heapMeta, meta, ARENA_META_WORDS)
    && p.heapMeta[meta] + p.heapMeta[meta + 3] <= U64_MAX
    && forall slot: nat | InHeap(p, lp, slot) :: RecordClean(p.heapRecords, slot)
  }

  function StreamStart(p: Plan, stream: nat, i: nat): nat
    requires Within(p.streamMeta, stream * ARENA_META_WORDS, ARENA_META_WORDS)
  {
    var meta := stream * ARENA_META_WORDS;
    var slot := RingSlot(p.streamMeta[meta + 1], p.streamMeta[meta + 2], i);
    assert slot * StreamWords(p, stream) >= 0;
    p.streamMeta[meta] + slot * StreamWords(p, stream)
  }

  /** Live record `i` of a stream can be read and is of no mechanism. */
  predicate StreamRecordClean(p: Plan, stream: nat, i: nat)
    requires Within(p.streamMeta, stream * ARENA_META_WORDS, ARENA_META_WORDS)
  {
    StreamRecordReadable(p, stream, i) && !Mechanism(StreamKind(p, stream, StreamStart(p, stream, i)))
  }

  /** Service streams carry no packet kind. */
  predicate Skipped(p: Plan, stream: nat) { p.serviceBase <= stream < p.generatorBase }

  ghost predicate StreamClean(p: Plan, stream: nat) {
    var meta := stream * ARENA_META_WORDS;
    Skipped(p, stream) ||
    (&& (stream >= p.serviceBase ==> Within(p.flows, (stream - p.generatorBase) * FLOW_WORDS, 1))
     && Within(p.streamMeta, meta, ARENA_META_WORDS)
     && forall i: nat | i < p.streamMeta[meta + 3] :: StreamRecordClean(p, stream, i))
  }

  function QueueSlot(p: Plan, lp: nat, i: nat): nat
    requires Within(p.queueMeta, lp * QUEUE_META_WORDS, QUEUE_META_WORDS)
  {
    var meta := lp * QUEUE_META_WORDS;
    p.queueMeta[meta] + RingSlot(p.queueMeta[meta + 1], p.queueMeta[meta + 2], i)
  }

  predicate QueueRecordClean(p: Plan, lp: nat, i: nat)
    requires Within(p.queueMeta, lp * QUEUE_META_WORDS, QUEUE_META_WORDS)
  {
    p.queueMeta[lp * QUEUE_META_WORDS + 2] + i <= U64_MAX && RecordClean(p.queueRecords, QueueSlot(p, lp, i))
  }

  ghost predicate QueueClean(p: Plan, lp: nat) {
    var meta := lp * QUEUE_META_WORDS;
    && Within(p.queueMeta, meta, QUEUE_META_WORDS)
    && forall i: nat | i < p.queueMeta[meta + 3] :: QueueRecordClean(p, lp, i)
  }

  /** A row in service counts while the node says so. */
  predicate ServiceClean(p: Plan, lp: nat) {
    var flag := lp * NODE_WORDS + 4;
    Within(p.nodeState, flag, 1) && (p.nodeState[flag] != 0 ==> RecordClean(p.inService, lp))
  }

  predicate NoRegion(p: Plan) { p.stageOffset == p.pfcOffset == p.roceOffset == NONE }

  ghost predicate GeneratorsClean(p: Plan, n: nat) { forall flow: nat | flow < n :: GeneratorClean(p, flow) }

  ghost predicate ReceiversClean(p: Plan, n: nat) {
    p.receiverOffset != NONE ==> forall flow: nat | flow < n :: ReceiverClean(p, flow)
  }

  ghost predicate HeapsClean(p: Plan, n: nat) { forall lp: nat | lp < n :: HeapClean(p, lp) }

  ghost predicate StreamsClean(p: Plan, n: nat) { forall stream: nat | stream < n :: StreamClean(p, stream) }

  ghost predicate QueuesClean(p: Plan, n: nat) { forall lp: nat | lp < n :: QueueClean(p, lp) }

  ghost predicate ServicesClean(p: Plan, n: nat) { forall lp: nat | lp < n :: ServiceClean(p, lp) }

  /** Every word the check needs lies in its plane, and nothing asks for a mechanism. */
  ghost predicate Clean(p: Plan) {
    && NoRegion(p) && GeneratorsClean(p, p.flowCount) && ReceiversClean(p, p.flowCount)
    && HeapsClean(p, p.nodeCount) && StreamsClean(p, p.streamCount)
    && QueuesClean(p, p.nodeCount) && ServicesClean(p, p.nodeCount)
  }

  /** A full record of the kind stands at the slot. */
  predicate OfKind(plane: seq<U64>, slot: nat, kind: U64) {
    && Within(plane, slot * EVENT_WORDS, EVENT_WORDS)
    && Mechanism(plane[slot * EVENT_WORDS + 10]) && Kind(plane[slot * EVENT_WORDS + 10]) == kind
  }

  /** The records of `lp` before `slot` are clean. */
  ghost predicate HeapCleanTo(p: Plan, lp: nat, slot: nat)
    requires Within(p.heapMeta, lp * ARENA_META_WORDS, ARENA_META_WORDS)
  {
    forall s: nat | InHeap(p, lp, s) && s < slot :: RecordClean(p.heapRecords, s)
  }

  /** The first record of `lp` that is not clean is of the kind. */
  ghost predicate HeapHas(p: Plan, lp: nat, kind: U64) {
    && Within(p.heapMeta, lp * ARENA_META_WORDS, ARENA_META_WORDS)
    && exists slot: nat :: InHeap(p, lp, slot) && HeapCleanTo(p, lp, slot) && OfKind(p.heapRecords, slot, kind)
  }

  predicate StreamRecordIs(p: Plan, stream: nat, i: nat, kind: U64)
    requires Within(p.streamMeta, stream * ARENA_META_WORDS, ARENA_META_WORDS)
  {
    && i < p.streamMeta[stream * ARENA_META_WORDS + 3]
    && Within(p.streamRecords, StreamStart(p, stream, i), StreamWords(p, stream))
    && Mechanism(StreamKind(p, stream, StreamStart(p, stream, i)))
    && Kind(StreamKind(p, stream, StreamStart(p, stream, i))) == kind
  }

  ghost predicate StreamCleanTo(p: Plan, stream: nat, i: nat)
    requires Within(p.streamMeta, stream * ARENA_META_WORDS, ARENA_META_WORDS)
  {
    forall j: nat | j < i :: StreamRecordClean(p, stream, j)
  }

  /** The first live record of the stream that is not clean is of the kind. */
  ghost predicate StreamHas(p: Plan, stream: nat, kind: U64) {
    && !Skipped(p, stream) && Within(p.streamMeta, stream * ARENA_META_WORDS, ARENA_META_WORDS)
    && exists i: nat :: StreamRecordIs(p, stream, i, kind) && StreamCleanTo(p, stream, i)
  }

  predicate QueueRecordIs(p: Plan, lp: nat, i: nat, kind: U64)
    requires Within(p.queueMeta, lp * QUEUE_META_WORDS, QUEUE_META_WORDS)
  {
    i < p.queueMeta[lp * QUEUE_META_WORDS + 3] && OfKind(p.queueRecords, QueueSlot(p, lp, i), kind)
  }

  ghost predicate QueueCleanTo(p: Plan, lp: nat, i: nat)
    requires Within(p.queueMeta, lp * QUEUE_META_WORDS, QUEUE_META_WORDS)
  {
    forall j: nat | j < i :: QueueRecordClean(p, lp, j)
  }

  ghost predicate QueueHas(p: Plan, lp: nat, kind: U64) {
    && Within(p.queueMeta, lp * QUEUE_META_WORDS, QUEUE_META_WORDS)
    && exists i: nat :: QueueRecordIs(p, lp, i, kind) && QueueCleanTo(p, lp, i)
  }

  predicate ServiceHas(p: Plan, lp: nat, kind: U64) {
    var flag := lp * NODE_WORDS + 4;
    Within(p.nodeState, flag, 1) && p.nodeState[flag] != 0 && OfKind(p.inService, lp, kind)
  }

  predicate GeneratorIs(p: Plan, flow: nat, kind: U64, owner: U64) {
    var row := flow * GENERATOR_WORDS;
    && Within(p.generators, row, GENERATOR_WORDS)
    && p.generators[row] != 0 && p.generators[row + 11] == kind && p.generators[row + 1] == owner
  }

  predicate ReceiverIs(p: Plan, flow: nat, roce: bool, target: U64) {
    var row, target' := p.receiverOffset + flow * RECEIVER_WORDS, flow * FLOW_WORDS + 1;
    && p.receiverOffset != NONE && Within(p.transport, row, 1) && Within(p.flows, target', 1)
    && p.transport[row] >= 2 && (roce <==> p.transport[row] == ROCE_MARKER) && p.flows[target'] == target
  }

  ghost predicate SomeStreamHas(p: Plan, arena: Arena, lp: Option<U64>, kind: U64) {
    exists stream: nat {:trigger StreamHas(p, stream, kind)} | stream < p.streamCount ::
      && StreamHas(p, stream, kind) && StreamsClean(p, stream)
      && (arena.ChannelStream? ==> stream < p.serviceBase && lp.None?)
      && (arena.GeneratorStream? ==>
            && p.serviceBase <= stream && p.generatorBase <= stream
            && Within(p.flows, (stream - p.generatorBase) * FLOW_WORDS, 1)
            && lp == Some(p.flows[(stream - p.generatorBase) * FLOW_WORDS]))
  }

  /** The marker can be read, and the flow's target if the marker calls for it. */
  predicate ReceiverReadable(p: Plan, flow: nat) {
    var row := p.receiverOffset + flow * RECEIVER_WORDS;
    Within(p.transport, row, 1) && (p.transport[row] >= 2 ==> Within(p.flows, flow * FLOW_WORDS + 1, 1))
  }

  /** The first word of the heap of `lp` that is no clean record lies outside its plane. */
  ghost predicate HeapOutside(p: Plan, lp: nat) {
    var meta := lp * ARENA_META_WORDS;
    || !Within(p.heapMeta, meta, ARENA_META_WORDS)
    || p.heapMeta[meta] + p.heapMeta[meta + 3] > U64_MAX
    || exists slot: nat :: InHeap(p, lp, slot) && HeapCleanTo(p, lp, slot) && !Within(p.heapRecords, slot * EVENT_WORDS, EVENT_WORDS)
  }

  predicate StreamRecordReadable(p: Plan, stream: nat, i: nat)
    requires Within(p.streamMeta, stream * ARENA_META_WORDS, ARENA_META_WORDS)
  {
    && p.streamMeta[stream * ARENA_META_WORDS + 2] + i <= U64_MAX
    && Within(p.streamRecords, StreamStart(p, stream, i), StreamWords(p, stream))
  }

  ghost predicate StreamOutside(p: Plan, stream: nat) {
    var meta := stream * ARENA_META_WORDS;
    && !Skipped(p, stream)
    && (|| (stream >= p.serviceBase && !Within(p.flows, (stream - p.generatorBase) * FLOW_WORDS, 1))
        || !Within(p.streamMeta, meta, ARENA_META_WORDS)
        || exists i: nat | i < p.streamMeta[meta + 3] :: StreamCleanTo(p, stream, i) && !StreamRecordReadable(p, stream, i))
  }

  predicate QueueRecordReadable(p: Plan, lp: nat, i: nat)
    requires Within(p.queueMeta, lp * QUEUE_META_WORDS, QUEUE_META_WORDS)
  {
    && p.queueMeta[lp * QUEUE_META_WORDS + 2] + i <= U64_MAX
    && Within(p.queueRecords, QueueSlot(p, lp, i) * EVENT_WORDS, EVENT_WORDS)
  }

  ghost predicate QueueOutside(p: Plan, lp: nat) {
    var meta := lp * QUEUE_META_WORDS;
    || !Within(p.queueMeta, meta, QUEUE_META_WORDS)
    || exists i: nat | i < p.queueMeta[meta + 3] :: QueueCleanTo(p, lp, i) && !QueueRecordReadable(p, lp, i)
  }

  predicate ServiceReadable(p: Plan, lp: nat) {
    var flag := lp * NODE_WORDS + 4;
    && Within(p.nodeState, flag, 1)
    && (p.nodeState[flag] != 0 ==> Within(p.inService, lp * EVENT_WORDS, EVENT_WORDS))
  }

  /** The first word, in the order of the check, that is not clean lies outside its plane. */
  ghost predicate Malformed(p: Plan) {
    || (exists flow: nat | flow < p.flowCount ::
          GeneratorsClean(p, flow) && !Within(p.generators, flow * GENERATOR_WORDS, GENERATOR_WORDS))
    || (&& GeneratorsClean(p, p.flowCount) && p.receiverOffset != NONE
        && exists flow: nat | flow < p.flowCount :: ReceiversClean(p, flow) && !ReceiverReadable(p, flow))
    || (&& GeneratorsClean(p, p.flowCount) && ReceiversClean(p, p.flowCount)
        && MalformedArena(p))
  }

  ghost predicate MalformedArena(p: Plan) {
    || (exists lp: nat | lp < p.nodeCount :: HeapsClean(p, lp) && HeapOutside(p, lp))
    || (HeapsClean(p, p.nodeCount) && exists stream: nat | stream < p.streamCount :: StreamsClean(p, stream) && StreamOutside(p, stream))
    || (&& HeapsClean(p, p.nodeCount) && StreamsClean(p, p.streamCount)
        && exists lp: nat | lp < p.nodeCount :: QueuesClean(p, lp) && QueueOutside(p, lp))
    || (&& HeapsClean(p, p.nodeCount) && StreamsClean(p, p.streamCount) && QueuesClean(p, p.nodeCount)
        && exists lp: nat | lp < p.nodeCount :: ServicesClean(p, lp) && !ServiceReadable(p, lp))
  }

  /** A live record of the arena has the kind, and everything the check looks at before it is clean. */
  ghost predicate PacketIn(p: Plan, arena: Arena, lp: Option<U64>, kind: U64) {
    match arena
    case FallbackHeap => lp.Some? && lp.value < p.nodeCount && HeapHas(p, lp.value, kind) && HeapsClean(p, lp.value)
    case ChannelStream => HeapsClean(p, p.nodeCount) && SomeStreamHas(p, arena, lp, kind)
    case GeneratorStream => HeapsClean(p, p.nodeCount) && SomeStreamHas(p, arena, lp, kind)
    case WaitingQueue =>
      && HeapsClean(p, p.nodeCount) && StreamsClean(p, p.streamCount)
      && lp.Some? && lp.value < p.nodeCount && QueueHas(p, lp.value, kind) && QueuesClean(p, lp.value)
    case InService =>
      && HeapsClean(p, p.nodeCount) && StreamsClean(p, p.streamCount) && QueuesClean(p, p.nodeCount)
      && lp.Some? && lp.value < p.nodeCount && ServiceHas(p, lp.value, kind) && ServicesClean(p, lp.value)
  }

  /** The reason a refusal gives is true of the plan, and all that is looked at before it is clean. */
  ghost predicate Names(p: Plan, r: Refusal) {
    match r
    case StageRegion => p.stageOffset != NONE
    case PfcRegion => p.pfcOffset != NONE && p.stageOffset == NONE
    case RoceRegion => p.roceOffset != NONE && p.stageOffset == p.pfcOffset == NONE
    case DcqcnGenerator(flow, owner) =>
      NoRegion(p) && flow < p.flowCount && GeneratorIs(p, flow, DCQCN, owner) && GeneratorsClean(p, flow)
    case RoceGenerator(flow, owner) =>
      NoRegion(p) && flow < p.flowCount && GeneratorIs(p, flow, ROCE, owner) && GeneratorsClean(p, flow)
    case DcqcnReceiver(flow, target) =>
      && NoRegion(p) && GeneratorsClean(p, p.flowCount)
      && flow < p.flowCount && ReceiverIs(p, flow, false, target) && ReceiversClean(p, flow)
    case RoceReceiver(flow, target) =>
      && NoRegion(p) && GeneratorsClean(p, p.flowCount)
      && flow < p.flowCount && ReceiverIs(p, flow, true, target) && ReceiversClean(p, flow)
    case MechanismPacket(arena, lp, kind) =>
      && NoRegion(p) && GeneratorsClean(p, p.flowCount) && ReceiversClean(p, p.flowCount)
      && PacketIn(p, arena, lp, kind)
    case MalformedPlan => NoRegion(p) && Malformed(p)
  }

  method ScanGenerators(p: Plan) returns (r: Option<Refusal>)
    requires NoRegion(p)
    ensures r.None? <==> GeneratorsClean(p, p.flowCount)
    ensures r.Some? ==> Names(p, r.value)
  {
    for flow: nat := 0 to p.flowCount
      invariant GeneratorsClean(p, flow)
    {
      var row := flow * GENERATOR_WORDS;
      if !Within(p.generators, row, GENERATOR_WORDS) {
        assert !GeneratorClean(p, flow);
        return Some(MalformedPlan);
      }
      if p.generators[row] != 0 && p.generators[row + 11] == DCQCN {
        assert !GeneratorClean(p, flow);
        return Some(DcqcnGenerator(flow, p.generators[row + 1]));
      }
      if p.generators[row] != 0 && p.generators[row + 11] == ROCE {
        assert !GeneratorClean(p, flow);
        return Some(RoceGenerator(flow, p.generators[row + 1]));
      }
    }
    return None;
  }

  method ScanReceivers(p: Plan) returns (r: Option<Refusal>)
    requires NoRegion(p) && GeneratorsClean(p, p.flowCount)
    ensures r.None? <==> ReceiversClean(p, p.flowCount)
    ensures r.Some? ==> Names(p, r.value)
  {
    if p.receiverOffset == NONE {
      return None;
    }
    for flow: nat := 0 to p.flowCount
      invariant ReceiversClean(p, flow)
    {
      var row := p.receiverOffset + flow * RECEIVER_WORDS;
      if row > U64_MAX || !Within(p.transport, row, 1) {
        assert !ReceiverClean(p, flow) && !ReceiverReadable(p, flow);
        return Some(MalformedPlan);
      }
      if p.transport[row] >= 2 {
        assert !ReceiverClean(p, flow);
        var target := flow * FLOW_WORDS + 1;
        if !Within(p.flows, target, 1) {
          assert !ReceiverReadable(p, flow);
          return Some(MalformedPlan);
        }
        return Some(if p.transport[row] == ROCE_MARKER then RoceReceiver(flow, p.flows[target])
                    else DcqcnReceiver(flow, p.flows[target]));
      }
    }
    return None;
  }

  /** Looks at one full record. */
  method ScanRecord(plane: Plane, slot: nat) returns (readable: bool, kind: Option<U64>)
    ensures readable && kind.None? <==> RecordClean(plane, slot)
    ensures readable <==> Within(plane, slot * EVENT_WORDS, EVENT_WORDS)
    ensures kind.Some? ==> OfKind(plane, slot, kind.value)
  {
    if slot * EVENT_WORDS > U64_MAX || !Within(plane, slot * EVENT_WORDS, EVENT_WORDS) {
      return false, None;
    }
    var word := plane[slot * EVENT_WORDS + 10];
    return true, if Mechanism(word) then Some(Kind(word)) else None;
  }

  datatype Verdict = Pass | Outside | Found(kind: U64)

  method ScanHeap(p: Plan, lp: U64) returns (v: Verdict)
    ensures v.Pass? <==> HeapClean(p, lp)
    ensures v.Outside? ==> HeapOutside(p, lp)
    ensures v.Found? ==> HeapHas(p, lp, v.kind)
  {
    hide Mechanism, Kind;
    var meta := lp * ARENA_META_WORDS;
    if !Within(p.heapMeta, meta, ARENA_META_WORDS) || p.heapMeta[meta] + p.heapMeta[meta + 3] > U64_MAX {
      return Outside;
    }
    for slot: nat := p.heapMeta[meta] to p.heapMeta[meta] + p.heapMeta[meta + 3]
      invariant HeapCleanTo(p, lp, slot)
    {
      assert InHeap(p, lp, slot);
      var readable, kind := ScanRecord(p.heapRecords, slot);
      if !readable {
        return Outside;
      }
      if kind.Some? {
        return Found(kind.value);
      }
    }
    return Pass;
  }

  method ScanStream(p: Plan, stream: U64) returns (v: Verdict)
    requires !Skipped(p, stream)
    requires stream >= p.serviceBase ==> Within(p.flows, (stream - p.generatorBase) * FLOW_WORDS, 1)
    ensures v.Pass? <==> StreamClean(p, stream)
    ensures v.Outside? ==> StreamOutside(p, stream)
    ensures v.Found? ==> StreamHas(p, stream, v.kind)
  {
    hide Mechanism, Kind, StreamKind, StreamStart, StreamWords;
    var meta := stream * ARENA_META_WORDS;
    if !Within(p.streamMeta, meta, ARENA_META_WORDS) {
      return Outside;
    }
    for i: nat := 0 to p.streamMeta[meta + 3]
      invariant StreamCleanTo(p, stream, i)
    {
      if p.streamMeta[meta + 2] + i > U64_MAX {
        assert !StreamRecordReadable(p, stream, i) && !StreamRecordClean(p, stream, i);
        return Outside;
      }
      var start := StreamStart(p, stream, i);
      if start > U64_MAX || !Within(p.streamRecords, start, StreamWords(p, stream)) {
        assert !StreamRecordReadable(p, stream, i) && !StreamRecordClean(p, stream, i);
        return Outside;
      }
      var word := StreamKind(p, stream, start);
      if Mechanism(word) {
        assert !StreamRecordClean(p, stream, i);
        assert StreamRecordIs(p, stream, i, Kind(word));
        return Found(Kind(word));
      }
    }
    return Pass;
  }

  method ScanQueue(p: Plan, lp: U64) returns (v: Verdict)
    ensures v.Pass? <==> QueueClean(p, lp)
    ensures v.Outside? ==> QueueOutside(p, lp)
    ensures v.Found? ==> QueueHas(p, lp, v.kind)
  {
    hide Mechanism, Kind, RecordClean, OfKind, RingSlot;
    var meta := lp * QUEUE_META_WORDS;
    if !Within(p.queueMeta, meta, QUEUE_META_WORDS) {
      return Outside;
    }
    for i: nat := 0 to p.queueMeta[meta + 3]
      invariant QueueCleanTo(p, lp, i)
    {
      if p.queueMeta[meta + 2] + i > U64_MAX {
        assert !QueueRecordReadable(p, lp, i) && !QueueRecordClean(p, lp, i);
        return Outside;
      }
      var readable, kind := ScanRecord(p.queueRecords, QueueSlot(p, lp, i));
      if !readable {
        assert !QueueRecordReadable(p, lp, i) && !QueueRecordClean(p, lp, i);
        return Outside;
      }
      if kind.Some? {
        assert !QueueRecordClean(p, lp, i);
        assert QueueRecordIs(p, lp, i, kind.value);
        return Found(kind.value);
      }
    }
    return Pass;
  }

  method ScanService(p: Plan, lp: U64) returns (v: Verdict)
    ensures v.Pass? <==> ServiceClean(p, lp)
    ensures v.Outside? ==> !ServiceReadable(p, lp)
    ensures v.Found? ==> ServiceHas(p, lp, v.kind)
  {
    hide Mechanism, Kind, RecordClean, OfKind;
    var flag := lp * NODE_WORDS + 4;
    if !Within(p.nodeState, flag, 1) {
      return Outside;
    }
    if p.nodeState[flag] == 0 {
      return Pass;
    }
    var readable, kind := ScanRecord(p.inService, lp);
    return if !readable then Outside else if kind.Some? then Found(kind.value) else Pass;
  }

  method ScanHeaps(p: Plan) returns (r: Option<Refusal>)
    requires NoRegion(p) && GeneratorsClean(p, p.flowCount) && ReceiversClean(p, p.flowCount)
    ensures r.None? <==> HeapsClean(p, p.nodeCount)
    ensures r.Some? ==> Names(p, r.value)
  {
    hide HeapClean, HeapOutside, HeapHas, GeneratorClean, ReceiverClean;
    for lp: nat := 0 to p.nodeCount
      invariant HeapsClean(p, lp)
    {
      var v := ScanHeap(p, lp);
      if !v.Pass? {
        return Some(if v.Outside? then MalformedPlan else MechanismPacket(FallbackHeap, Some(lp), v.kind));
      }
    }
    return None;
  }

  method ScanStreams(p: Plan) returns (r: Option<Refusal>)
    requires NoRegion(p) && GeneratorsClean(p, p.flowCount) && ReceiversClean(p, p.flowCount) && HeapsClean(p, p.nodeCount)
    ensures r.None? <==> StreamsClean(p, p.streamCount)
    ensures r.Some? ==> Names(p, r.value)
  {
    hide StreamHas, HeapClean, GeneratorClean, ReceiverClean, StreamRecordClean;
    for stream: nat := 0 to p.streamCount
      invariant StreamsClean(p, stream)
    {
      if Skipped(p, stream) {
        continue;
      }
      var lp := None;
      if stream >= p.serviceBase {
        var word := (stream - p.generatorBase) * FLOW_WORDS;
        if !Within(p.flows, word, 1) {
          assert !StreamClean(p, stream) && StreamOutside(p, stream);
          return Some(MalformedPlan);
        }
        lp := Some(p.flows[word]);
      }
      var v := ScanStream(p, stream);
      if v.Outside? {
        return Some(MalformedPlan);
      }
      if v.Found? {
        var arena := if stream < p.serviceBase then ChannelStream else GeneratorStream;
        assert SomeStreamHas(p, arena, lp, v.kind);
        return Some(MechanismPacket(arena, lp, v.kind));
      }
    }
    return None;
  }

  method ScanQueues(p: Plan) returns (r: Option<Refusal>)
    requires NoRegion(p) && GeneratorsClean(p, p.flowCount) && ReceiversClean(p, p.flowCount)
    requires HeapsClean(p, p.nodeCount) && StreamsClean(p, p.streamCount)
    ensures r.None? <==> QueuesClean(p, p.nodeCount)
    ensures r.Some? ==> Names(p, r.value)
  {
    hide HeapsClean, StreamsClean, GeneratorsClean, ReceiversClean, QueueClean, QueueOutside, QueueHas;
    for lp: nat := 0 to p.nodeCount
      invariant QueuesClean(p, lp)
    {
      var v := ScanQueue(p, lp);
      if !v.Pass? {
        return Some(if v.Outside? then MalformedPlan else MechanismPacket(WaitingQueue, Some(lp), v.kind));
      }
    }
    return None;
  }

  method ScanServices(p: Plan) returns (r: Option<Refusal>)
    requires NoRegion(p) && GeneratorsClean(p, p.flowCount) && ReceiversClean(p, p.flowCount)
    requires HeapsClean(p, p.nodeCount) && StreamsClean(p, p.streamCount) && QueuesClean(p, p.nodeCount)
    ensures r.None? <==> ServicesClean(p, p.nodeCount)
    ensures r.Some? ==> Names(p, r.value)
  {
    hide HeapsClean, StreamsClean, GeneratorsClean, ReceiversClean, QueuesClean, ServiceClean, ServiceReadable, ServiceHas;
    for lp: nat := 0 to p.nodeCount
      invariant ServicesClean(p, lp)
    {
      var v := ScanService(p, lp);
      if !v.Pass? {
        return Some(if v.Outside? then MalformedPlan else MechanismPacket(InService, Some(lp), v.kind));
      }
    }
    return None;
  }

  /** Refuses the plain kernel exactly for plans that are not clean, and for the first reason there is. */
  method Refuse(p: Plan) returns (r: Option<Refusal>)
    ensures r.None? <==> Clean(p)
    ensures r.Some? ==> Names(p, r.value)
  {
    hide HeapsClean, StreamsClean, GeneratorsClean, ReceiversClean, QueuesClean, ServicesClean;
    if p.stageOffset != NONE {
      return Some(StageRegion);
    }
    if p.pfcOffset != NONE {
      return Some(PfcRegion);
    }
    if p.roceOffset != NONE {
      return Some(RoceRegion);
    }
    r := ScanGenerators(p);
    if r.Some? {
      return;
    }
    r := ScanReceivers(p);
    if r.Some? {
      return;
    }
    r := ScanHeaps(p);
    if r.Some? {
      return;
    }
    r := ScanStreams(p);
    if r.Some? {
      return;
    }
    r := ScanQueues(p);
    if r.Some? {
      return;
    }
    r := ScanServices(p);
  }

  /** The planes agree on `length` words from `start` on, as far as they reach. */
  ghost predicate SameWords(a: seq<U64>, b: seq<U64>, start: nat, length: nat) {
    |a| == |b| && forall x | start <= x < start + length && x < |a| :: a[x] == b[x]
  }

  /** Two plans that differ at most in words no live row or record holds. */
  ghost predicate SameLive(a: Plan, b: Plan) {
    && b == a.(generators := b.generators, transport := b.transport, heapRecords := b.heapRecords,
               streamRecords := b.streamRecords, queueRecords := b.queueRecords, inService := b.inService)
    && |a.generators| == |b.generators| && |a.transport| == |b.transport| && |a.heapRecords| == |b.heapRecords|
    && |a.streamRecords| == |b.streamRecords| && |a.queueRecords| == |b.queueRecords| && |a.inService| == |b.inService|
    && (forall flow: nat | flow < a.flowCount :: SameGenerator(a, b, flow))
    && (forall flow: nat | flow < a.flowCount :: SameReceiver(a, b, flow))
    && (forall lp: nat, slot: nat | lp < a.nodeCount && Within(a.heapMeta, lp * ARENA_META_WORDS, ARENA_META_WORDS) && InHeap(a, lp, slot) ::
          SameWords(a.heapRecords, b.heapRecords, slot * EVENT_WORDS, EVENT_WORDS))
    && (forall stream: nat | stream < a.streamCount && !Skipped(a, stream) :: SameStream(a, b, stream))
    && (forall lp: nat | lp < a.nodeCount :: SameQueue(a, b, lp))
    && (forall lp: nat | lp < a.nodeCount :: SameService(a, b, lp))
  }

  /** The flag of a generator row counts, and the row while the flag is set. */
  ghost predicate SameGenerator(a: Plan, b: Plan, flow: nat) {
    var row := flow * GENERATOR_WORDS;
    && SameWords(a.generators, b.generators, row, 1)
    && (row < |a.generators| && a.generators[row] != 0 ==> SameWords(a.generators, b.generators, row, GENERATOR_WORDS))
  }

  ghost predicate SameReceiver(a: Plan, b: Plan, flow: nat) {
    a.receiverOffset != NONE ==> SameWords(a.transport, b.transport, a.receiverOffset + flow * RECEIVER_WORDS, 1)
  }

  ghost predicate SameStream(a: Plan, b: Plan, stream: nat) {
    var meta := stream * ARENA_META_WORDS;
    Within(a.streamMeta, meta, ARENA_META_WORDS) ==>
      forall i: nat | i < a.streamMeta[meta + 3] ::
        SameWords(a.streamRecords, b.streamRecords, StreamStart(a, stream, i), StreamWords(a, stream))
  }

  ghost predicate SameQueue(a: Plan, b: Plan, lp: nat) {
    var meta := lp * QUEUE_META_WORDS;
    Within(a.queueMeta, meta, QUEUE_META_WORDS) ==>
      forall i: nat | i < a.queueMeta[meta + 3] ::
        SameWords(a.queueRecords, b.queueRecords, QueueSlot(a, lp, i) * EVENT_WORDS, EVENT_WORDS)
  }

  ghost predicate SameService(a: Plan, b: Plan, lp: nat) {
    var flag := lp * NODE_WORDS + 4;
    Within(a.nodeState, flag, 1) && a.nodeState[flag] != 0 ==>
      SameWords(a.inService, b.inService, lp * EVENT_WORDS, EVENT_WORDS)
  }

  lemma SameHeap(a: Plan, b: Plan, lp: nat)
    requires SameLive(a, b) && lp < a.nodeCount
    ensures HeapClean(a, lp) <==> HeapClean(b, lp)
  {
    hide Mechanism, SameGenerator, SameReceiver, SameStream, SameQueue, SameService;
    if Within(a.heapMeta, lp * ARENA_META_WORDS, ARENA_META_WORDS) {
      forall slot: nat | InHeap(a, lp, slot)
        ensures InHeap(b, lp, slot) && (RecordClean(a.heapRecords, slot) <==> RecordClean(b.heapRecords, slot))
      {
        assert SameWords(a.heapRecords, b.heapRecords, slot * EVENT_WORDS, EVENT_WORDS);
      }
      assert forall slot: nat :: InHeap(a, lp, slot) <==> InHeap(b, lp, slot);
    }
  }

  lemma SameStreamRecord(a: Plan, b: Plan, stream: nat, i: nat)
    requires Within(a.streamMeta, stream * ARENA_META_WORDS, ARENA_META_WORDS)
    requires b.streamMeta == a.streamMeta && b.serviceBase == a.serviceBase && b.generatorBase == a.generatorBase
    requires SameWords(a.streamRecords, b.streamRecords, StreamStart(a, stream, i), StreamWords(a, stream))
    ensures StreamRecordClean(a, stream, i) <==> StreamRecordClean(b, stream, i)
  {
    hide Mechanism, Decode, RingSlot;
    var start, width := StreamStart(a, stream, i), StreamWords(a, stream);
    if Within(a.streamRecords, start, width) {
      assert a.streamRecords[start..start + width] == b.streamRecords[start..start + width];
    }
  }

  lemma SameStreams(a: Plan, b: Plan, stream: nat)
    requires SameLive(a, b) && stream < a.streamCount
    ensures StreamClean(a, stream) <==> StreamClean(b, stream)
  {
    hide SameGenerator, SameReceiver, SameQueue, SameService, StreamRecordClean, StreamStart, StreamWords, SameWords;
    if !Skipped(a, stream) && Within(a.streamMeta, stream * ARENA_META_WORDS, ARENA_META_WORDS) {
      assert SameStream(a, b, stream);
      forall i: nat | i < a.streamMeta[stream * ARENA_META_WORDS + 3]
        ensures StreamRecordClean(a, stream, i) <==> StreamRecordClean(b, stream, i)
      {
        SameStreamRecord(a, b, stream, i);
      }
    }
  }

  lemma SameQueues(a: Plan, b: Plan, lp: nat)
    requires SameLive(a, b) && lp < a.nodeCount
    ensures QueueClean(a, lp) <==> QueueClean(b, lp)
  {
    hide Mechanism, SameGenerator, SameReceiver, SameStream, SameService, RingSlot;
    if Within(a.queueMeta, lp * QUEUE_META_WORDS, QUEUE_META_WORDS) {
      assert SameQueue(a, b, lp);
      forall i: nat | i < a.queueMeta[lp * QUEUE_META_WORDS + 3]
        ensures QueueRecordClean(a, lp, i) <==> QueueRecordClean(b, lp, i)
      {
        assert SameWords(a.queueRecords, b.queueRecords, QueueSlot(a, lp, i) * EVENT_WORDS, EVENT_WORDS);
      }
    }
  }

  lemma SameRows(a: Plan, b: Plan, k: nat)
    requires SameLive(a, b)
    ensures k < a.flowCount ==> (GeneratorClean(a, k) <==> GeneratorClean(b, k))
    ensures k < a.flowCount && a.receiverOffset != NONE ==> (ReceiverClean(a, k) <==> ReceiverClean(b, k))
    ensures k < a.nodeCount ==> (ServiceClean(a, k) <==> ServiceClean(b, k))
  {
    hide Mechanism, SameStream, SameQueue;
    if k < a.flowCount {
      assert SameGenerator(a, b, k) && SameReceiver(a, b, k);
    }
    if k < a.nodeCount {
      assert SameService(a, b, k);
    }
  }

  /** Stale words in dead rows and free slots never matter. */
  lemma StaleWordsNeverMatter(a: Plan, b: Plan)
    requires SameLive(a, b)
    ensures Clean(a) <==> Clean(b)
  {
    hide GeneratorClean, ReceiverClean, ServiceClean, HeapClean, QueueClean, StreamClean, SameGenerator, SameReceiver, SameStream,
         SameQueue, SameService, InHeap, SameWords;
    forall k: nat
      ensures k < a.flowCount ==> (GeneratorClean(a, k) <==> GeneratorClean(b, k))
      ensures k < a.flowCount && a.receiverOffset != NONE ==> (ReceiverClean(a, k) <==> ReceiverClean(b, k))
      ensures k < a.nodeCount ==> (ServiceClean(a, k) <==> ServiceClean(b, k))
    {
      SameRows(a, b, k);
    }
    forall k: nat | k < a.nodeCount
      ensures HeapClean(a, k) <==> HeapClean(b, k)
      ensures QueueClean(a, k) <==> QueueClean(b, k)
    {
      SameHeap(a, b, k);
      SameQueues(a, b, k);
    }
    forall k: nat | k < a.streamCount
      ensures StreamClean(a, k) <==> StreamClean(b, k)
    {
      SameStreams(a, b, k);
    }
  }

  datatype PacketKind =
    | Data | Feedback | TcpData | TcpAck | Pfc | DcqcnCnp | RoceData | RoceAck | RoceNack | RocePacingTimer | StageNotify

  function Number(kind: PacketKind): U64 {
    match kind
    case Data => 0
    case Feedback => 1
    case TcpData => 2
    case TcpAck => 3
    case Pfc => 4
    case DcqcnCnp => 5
    case RoceData => 7
    case RoceAck => 8
    case RoceNack => 9
    case RocePacingTimer => 10
    case StageNotify => 11
  }

  /** The plain kernel runs plain and TCP packets and no other kind there is, marked or not; no word that is
      of no kind counts as one. */
  lemma PlainKinds(kind: PacketKind, marked: bool, word: U64)
    ensures var stored := Number(kind) + if marked then 0x8000_0000_0000_0000 else 0;
            && Kind(stored) == Number(kind)
            && (Mechanism(stored) <==> !(kind.Data? || kind.Feedback? || kind.TcpData? || kind.TcpAck?))
    ensures Mechanism(word) ==> exists k: PacketKind :: Number(k) == Kind(word)
  {
    if Mechanism(word) {
      assert Number(Pfc) == 4 && Number(DcqcnCnp) == 5 && Number(RoceData) == 7 && Number(RoceAck) == 8;
      assert Number(RoceNack) == 9 && Number(RocePacingTimer) == 10 && Number(StageNotify) == 11;
    }
  }
}
