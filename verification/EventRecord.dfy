/** The narrow stored forms of an event record, and when they lose nothing. */
module EventRecord {
  import opened Events

  const EVENT_WORDS: nat := 14

  /** Time, phase, origin, sequence, target, kind and payload of the event; then id, flow, size, kind and
      three metadata words of its packet. */
  type Record = r: seq<U64> | |r| == 14 witness [0, 0, 0, 0, 0, 0, 0, 0, 0, 0, 0, 0, 0, 0]

  datatype StoredClass = Channel | Service | Generator | Fallback

  const PACKET_ARRIVAL: U64 := 0
  const TX_READY: U64 := 1
  const TX_COMPLETE: U64 := 2
  const REMOTE_ARRIVAL: U64 := 3

  function StoredWords(c: StoredClass): nat {
    match c
    case Channel => 11
    case Service => 5
    case Generator => 10
    case Fallback => 14
  }

  function StreamClass(stream: nat, serviceBase: nat, generatorBase: nat): StoredClass {
    if stream < serviceBase then Channel else if stream < generatorBase then Service else Generator
  }

  function Encode(r: Record, c: StoredClass): (e: seq<U64>)
    ensures |e| == StoredWords(c)
  {
    match c
    case Channel => r[..4] + [r[6]] + r[8..14]
    case Service => r[..4] + [r[6]]
    case Generator => r[..4] + [r[6]] + r[9..14]
    case Fallback => r
  }

  /** Puts back what the place of a record tells: its node, its kind, its flow, or the packet in service. */
  function Decode(e: seq<U64>, c: StoredClass, node: U64, flow: U64, service: Record): Record
    requires |e| == StoredWords(c)
  {
    match c
    case Channel => e[..4] + [node, REMOTE_ARRIVAL, e[4], e[4]] + e[5..11]
    case Service =>
      if e[1] == 2 then e[..4] + [node, TX_READY, e[4], 0, 0, 0, 0, 0, 0, 0]
      else e[..4] + [node, TX_COMPLETE, e[4]] + service[7..14]
    case Generator => e[..4] + [node, PACKET_ARRIVAL, e[4], e[4], flow] + e[5..10]
    case Fallback => e
  }

  /** What a record must be for its stored form to bring it back whole. */
  predicate Restorable(r: Record, c: StoredClass, node: U64, flow: U64, service: Record) {
    match c
    case Channel => r[4] == node && r[5] == REMOTE_ARRIVAL && r[7] == r[6]
    case Service =>
      && r[4] == node && r[5] == (if r[1] == 2 then TX_READY else TX_COMPLETE)
      && r[7..14] == if r[1] == 2 then [0, 0, 0, 0, 0, 0, 0] else service[7..14]
    case Generator => r[4] == node && r[5] == PACKET_ARRIVAL && r[7] == r[6] && r[8] == flow
    case Fallback => true
  }

  /** Storing a record and reading it back gives the record exactly when its place tells the words
      that were not stored. */
  lemma RecordComesBack(r: Record, c: StoredClass, node: U64, flow: U64, service: Record)
    ensures Decode(Encode(r, c), c, node, flow, service) == r <==> Restorable(r, c, node, flow, service)
  {
    var e, d := Encode(r, c), Decode(Encode(r, c), c, node, flow, service);
    match c
    case Channel =>
      assert e[..4] == r[..4] && e[4] == r[6] && e[5..11] == r[8..14];
      assert d[..4] == r[..4] && d[4] == node && d[5] == REMOTE_ARRIVAL && d[6] == r[6] && d[7] == r[6] && d[8..14] == r[8..14];
      SameParts(d, r, 8);
    case Service =>
      assert e[..4] == r[..4] && e[4] == r[6] && e[1] == r[1];
      assert d[..4] == r[..4] && d[4] == node && d[6] == r[6];
      assert d[5] == if r[1] == 2 then TX_READY else TX_COMPLETE;
      assert d[7..14] == if r[1] == 2 then [0, 0, 0, 0, 0, 0, 0] else service[7..14];
      SameParts(d, r, 7);
    case Generator =>
      assert e[..4] == r[..4] && e[4] == r[6] && e[5..10] == r[9..14];
      assert d[..4] == r[..4] && d[4] == node && d[5] == PACKET_ARRIVAL && d[6] == r[6] && d[7] == r[6] && d[8] == flow;
      assert d[9..14] == r[9..14];
      SameParts(d, r, 9);
    case Fallback =>
  }

  /** Records are the same exactly if they agree from `from` on and in the words before it. */
  lemma SameParts(a: Record, b: Record, from: nat)
    requires 4 <= from <= 14
    ensures a == b <==> a[..4] == b[..4] && (forall i | 4 <= i < from :: a[i] == b[i]) && a[from..14] == b[from..14]
  {
    if a[..4] == b[..4] && (forall i | 4 <= i < from :: a[i] == b[i]) && a[from..14] == b[from..14] {
      forall i | 0 <= i < 14
        ensures a[i] == b[i]
      {
        if i < 4 {
          assert a[..4][i] == b[..4][i];
        } else if i >= from {
          assert a[from..14][i - from] == b[from..14][i - from];
        }
      }
      SameRecord(a, b);
    }
  }

  lemma SameRecord(a: Record, b: Record)
    requires forall i | 0 <= i < 14 :: a[i] == b[i]
    ensures a == b
  {
  }

  /** A service record always brings the event itself back, whatever packet it names, provided its
      phase tells its kind. */
  lemma ServiceKeepsEvent(r: Record, node: U64, flow: U64, service: Record)
    requires r[4] == node && r[5] == (if r[1] == 2 then TX_READY else TX_COMPLETE)
    ensures Decode(Encode(r, Service), Service, node, flow, service)[..7] == r[..7]
  {
    var d := Decode(Encode(r, Service), Service, node, flow, service);
    assert d[..4] == r[..4] && d[4] == r[4] && d[5] == r[5] && d[6] == r[6];
  }

  /** Where the stored forms keep what: key, then payload; a channel record then packet flow, size, kind and metadata,
      a generator record packet size, kind and metadata. */
  lemma StoredLayout(r: Record, i: nat)
    ensures i < 4 ==> Encode(r, Channel)[i] == Encode(r, Service)[i] == Encode(r, Generator)[i] == r[i]
    ensures Encode(r, Channel)[4] == Encode(r, Service)[4] == Encode(r, Generator)[4] == r[6]
    ensures i < 6 ==> Encode(r, Channel)[5 + i] == r[8 + i]
    ensures i < 5 ==> Encode(r, Generator)[5 + i] == r[9 + i]
    ensures i < 14 ==> Encode(r, Fallback)[i] == r[i]
  {
  }

  /** The phase of a service record tells its kind, as phases tell ready from complete. */
  lemma PhaseTellsService(kind: EventKind)
    requires kind.TxReady? || kind.TxComplete?
    ensures Phase(kind) == 2 <==> kind.TxReady?
  {
  }
}
