/** Reading priority flow control state back from the plane. */
module PfcRestore {
  import opened Events
  import opened Planes
  import opened Bitsets
  import opened PfcRegion
  import SplitMix
  import Words

  /** Rows of the region never overlap. */
  lemma RowsNeverOverlap(words: seq<U64>, region: nat, rows: seq<Row>, width: nat, floor: nat, i: nat, j: nat)
    requires i < j < |rows| && AllEntered(words, region, rows, width, floor, |rows|)
    ensures region + rows[i].lp < |words| && region + rows[j].lp < |words|
    ensures words[region + rows[i].lp] + RowLength(rows[i], width) <= words[region + rows[j].lp]
  {
    hide RowAt, RowLength;
    assert Entered(words, region, rows, width, floor, i) && Entered(words, region, rows, width, floor, j);
    assert rows[..j][..i + 1] == rows[..i + 1] && rows[..i + 1][..i] == rows[..i];
    LengthGrows(rows[..j], width, i + 1);
  }

  /** What a row says of pauses. */
  ghost predicate RowHolds(words: seq<U64>, row: Row, width: nat, start: nat) {
    && |row.paused| == PRIORITIES && RowAt(words, row, width, start) && |row.controllers| <= 64 * width
    && (forall p, x | 0 <= p < PRIORITIES && x in row.paused[p] :: x in row.controllers)
  }

  lemma HeaderTells(words: seq<U64>, row: Row, width: nat, start: nat)
    requires |row.paused| == PRIORITIES && RowAt(words, row, width, start)
    ensures start + ROW_HEADER_WORDS + |row.controllers| <= |words|
    ensures words[start] == |row.controllers| && words[start + 2] == width
    ensures words[start + 1] == if row.tail.Monitors? then |row.tail.ingresses| else 0
    ensures words[start + 3] == start + ROW_HEADER_WORDS + |row.controllers|
    ensures words[start + 4] == words[start + 3] + PRIORITIES * width
    ensures words[start + ROW_HEADER_WORDS..start + ROW_HEADER_WORDS + |row.controllers|] == row.controllers
  {
    hide Encodes, IngressRecords, TailWords;
    var header := Header(row, width, start);
    assert words[start..start + ROW_HEADER_WORDS] == header;
    forall i | 0 <= i < ROW_HEADER_WORDS
      ensures words[start + i] == header[i]
    {
      assert words[start..start + ROW_HEADER_WORDS][i] == header[i];
    }
    assert words[start + 0] == header[0];
  }

  lemma BitsTell(words: seq<U64>, row: Row, width: nat, start: nat)
    requires |row.paused| == PRIORITIES && RowAt(words, row, width, start)
    ensures var bitsets := start + ROW_HEADER_WORDS + |row.controllers|;
            && bitsets <= bitsets + PRIORITIES * width <= |words|
            && Encodes(words[bitsets..bitsets + PRIORITIES * width], width, row.controllers, row.paused)
  {
    hide Encodes, IngressRecords;
  }

  /** No word that the pause sets of a row are read from lies outside the plane. */
  ghost predicate PauseReadable(words: seq<U64>, start: nat) {
    && start + ROW_HEADER_WORDS <= |words| && start + ROW_HEADER_WORDS + words[start] <= |words|
    && forall p: nat, b: nat | p < PRIORITIES && b < words[start] :: BitWord(words, start, p, b) < |words|
  }

  /** The word of bit `b` of priority `p`. */
  function BitWord(words: seq<U64>, start: nat, p: nat, b: nat): nat
    requires start + ROW_HEADER_WORDS <= |words|
  {
    words[start + 3] + RowStart(p, words[start + 2]) + b / 64
  }

  /** Controller `x` of the row has its bit set for priority `p`. */
  ghost predicate Holds(words: seq<U64>, start: nat, p: nat, x: U64)
    requires PauseReadable(words, start) && p < PRIORITIES
  {
    exists b: nat | b < words[start] :: words[start + ROW_HEADER_WORDS + b] == x && BitSet(words, start, p, b)
  }

  predicate BitSet(words: seq<U64>, start: nat, p: nat, b: nat)
    requires start + ROW_HEADER_WORDS <= |words| && BitWord(words, start, p, b) < |words|
  {
    BitAt(words, words[start + 3] + RowStart(p, words[start + 2]), b)
  }

  /** The pause sets are what the bits of the row say. */
  ghost predicate AreHeld(words: seq<U64>, start: nat, paused: seq<set<U64>>)
    requires PauseReadable(words, start)
  {
    |paused| == PRIORITIES && forall p: nat, x | p < PRIORITIES :: x in paused[p] <==> Holds(words, start, p, x)
  }

  /** Reads the pause sets of a row, whatever the device wrote there. */
  method RestorePaused(words: seq<U64>, start: nat) returns (paused: seq<set<U64>>)
    requires PauseReadable(words, start)
    ensures AreHeld(words, start, paused)
  {
    hide BitAt, RowStart;
    var count := words[start];
    var controllers := words[start + ROW_HEADER_WORDS..start + ROW_HEADER_WORDS + count];
    paused := [];
    for p: nat := 0 to PRIORITIES
      invariant |paused| == p && forall q: nat, x | q < p :: x in paused[q] <==> Holds(words, start, q, x)
    {
      var from := words[start + 3] + RowStart(p, words[start + 2]);
      forall b: nat | b < |controllers|
        ensures from + b / 64 < |words|
      {
        assert BitWord(words, start, p, b) < |words|;
      }
      var members := DecodeSet(words, from, controllers);
      MembersHold(words, start, p, controllers, members);
      paused := paused + [members];
    }
  }

  lemma MembersHold(words: seq<U64>, start: nat, p: nat, controllers: seq<U64>, members: set<U64>)
    requires PauseReadable(words, start) && p < PRIORITIES
    requires controllers == words[start + ROW_HEADER_WORDS..start + ROW_HEADER_WORDS + words[start]]
    requires forall b: nat | b < |controllers| :: BitWord(words, start, p, b) < |words|
    requires forall x :: x in members <==> exists b: nat :: b < |controllers| && controllers[b] == x && BitSet(words, start, p, b)
    ensures forall x :: x in members <==> Holds(words, start, p, x)
  {
    hide BitSet, BitWord;
    forall x
      ensures x in members <==> Holds(words, start, p, x)
    {
      if x in members {
        var b: nat :| b < |controllers| && controllers[b] == x && BitSet(words, start, p, b);
        assert words[start + ROW_HEADER_WORDS + b] == x;
      }
      if Holds(words, start, p, x) {
        var b: nat :| b < words[start] && words[start + ROW_HEADER_WORDS + b] == x && BitSet(words, start, p, b);
        assert controllers[b] == x;
      }
    }
  }

  /** A row that stands can be read. */
  lemma RowIsReadable(words: seq<U64>, row: Row, width: nat, start: nat)
    requires RowHolds(words, row, width, start)
    ensures PauseReadable(words, start)
  {
    hide RowAt, RowStart;
    HeaderTells(words, row, width, start);
    BitsTell(words, row, width, start);
    forall p: nat, b: nat | p < PRIORITIES && b < words[start]
      ensures BitWord(words, start, p, b) < |words|
    {
      InRow(p, PRIORITIES, width, b, |row.controllers|);
    }
  }

  /** The pause sets read from a row that stands are those it was written from. */
  lemma PausedComesBack(words: seq<U64>, row: Row, width: nat, start: nat, paused: seq<set<U64>>)
    requires RowHolds(words, row, width, start) && PauseReadable(words, start) && AreHeld(words, start, paused)
    ensures paused == row.paused
  {
    hide RowAt, Encodes, BitAt, RowStart, Holds;
    HeaderTells(words, row, width, start);
    BitsTell(words, row, width, start);
    var bitsets := start + ROW_HEADER_WORDS + |row.controllers|;
    var bits := words[bitsets..bitsets + PRIORITIES * width];
    forall p: nat | p < PRIORITIES
      ensures paused[p] == row.paused[p]
    {
      forall b: nat | b < |row.controllers|
        ensures RowStart(p, width) + b / 64 < |bits|
      {
        InRow(p, PRIORITIES, width, b, |row.controllers|);
      }
      HeldByBits(words, row, width, start, p, bits);
      SetComesBack(bits, width, row.controllers, row.paused, p, paused[p]);
    }
  }

  lemma HeldByBits(words: seq<U64>, row: Row, width: nat, start: nat, p: nat, bits: seq<U64>)
    requires RowHolds(words, row, width, start) && PauseReadable(words, start) && p < PRIORITIES
    requires words[start] == |row.controllers| && words[start + 2] == width
    requires words[start + 3] == start + ROW_HEADER_WORDS + |row.controllers|
    requires words[start + ROW_HEADER_WORDS..start + ROW_HEADER_WORDS + |row.controllers|] == row.controllers
    requires words[start + 3] <= words[start + 3] + PRIORITIES * width <= |words|
    requires bits == words[words[start + 3]..words[start + 3] + PRIORITIES * width]
    requires forall b: nat | b < |row.controllers| :: RowStart(p, width) + b / 64 < |bits|
    ensures forall x :: Holds(words, start, p, x) <==>
                        exists b: nat :: b < |row.controllers| && row.controllers[b] == x && BitAt(bits, RowStart(p, width), b)
  {
    hide RowAt, RowStart;
    forall b: nat | b < |row.controllers|
      ensures BitSet(words, start, p, b) == BitAt(bits, RowStart(p, width), b)
      ensures words[start + ROW_HEADER_WORDS + b] == row.controllers[b]
    {
      assert BitWord(words, start, p, b) < |words|;
      assert words[start + ROW_HEADER_WORDS..start + ROW_HEADER_WORDS + |row.controllers|][b] == row.controllers[b];
    }
    forall x
      ensures Holds(words, start, p, x) <==>
              exists b: nat :: b < |row.controllers| && row.controllers[b] == x && BitAt(bits, RowStart(p, width), b)
    {
      if Holds(words, start, p, x) {
        var b: nat :| b < words[start] && words[start + ROW_HEADER_WORDS + b] == x && BitSet(words, start, p, b);
        assert row.controllers[b] == x && BitAt(bits, RowStart(p, width), b);
      }
      if exists b: nat :: b < |row.controllers| && row.controllers[b] == x && BitAt(bits, RowStart(p, width), b) {
        var b: nat :| b < |row.controllers| && row.controllers[b] == x && BitAt(bits, RowStart(p, width), b);
        assert words[start + ROW_HEADER_WORDS + b] == x && BitSet(words, start, p, b);
      }
    }
  }

  /** A monitor is the one of the image, whatever its occupancy and assertions. */
  predicate SameMonitor(a: Ingress, b: Ingress) {
    a.link == b.link && a.capacity == b.capacity && a.xoff == b.xoff && a.xon == b.xon
  }

  ghost predicate SameMonitors(a: seq<Ingress>, b: seq<Ingress>) {
    |a| == |b| && forall k | 0 <= k < |a| :: SameMonitor(a[k], b[k])
  }

  lemma RecordWords(g: Ingress)
    ensures var r := IngressRecord(g);
            && r[0] == g.link && r[3..11] == g.capacity && r[11..19] == g.xoff && r[19..27] == g.xon
            && r[27..35] == g.occupancy && r[35..43] == FlagWords(g.asserted)
  {
  }

  /** The record is of the monitor: its fixed words agree, and its assertions are zero or one. */
  ghost predicate OfMonitor(record: seq<U64>, monitor: Ingress)
    requires |record| == INGRESS_WORDS
  {
    && record[0] == monitor.link && record[3..11] == monitor.capacity && record[11..19] == monitor.xoff
    && record[19..27] == monitor.xon && forall p | 0 <= p < 8 :: record[35..43][p] <= 1
  }

  /** The monitor holds what the record says of occupancy and assertions. */
  ghost predicate Updated(record: seq<U64>, monitor: Ingress, after: Ingress)
    requires |record| == INGRESS_WORDS
  {
    && after == monitor.(occupancy := after.occupancy, asserted := after.asserted) && after.occupancy == record[27..35]
    && forall p | 0 <= p < 8 :: after.asserted[p] == (record[35..43][p] == 1)
  }

  /** Reads one monitor from any record, and checks what the image fixes. */
  method RestoreMonitor(record: seq<U64>, monitor: Ingress) returns (r: Option<Ingress>)
    requires |record| == INGRESS_WORDS
    ensures r.Some? <==> OfMonitor(record, monitor)
    ensures r.Some? ==> Updated(record, monitor, r.value)
  {
    if record[0] != monitor.link || record[3..11] != monitor.capacity || record[11..19] != monitor.xoff ||
       record[19..27] != monitor.xon {
      return None;
    }
    var flags := record[35..43];
    var asserted: seq<bool> := [];
    for p := 0 to 8
      invariant |asserted| == p && forall q | 0 <= q < p :: flags[q] <= 1 && asserted[q] == (flags[q] == 1)
    {
      if flags[p] > 1 {
        return None;
      }
      asserted := asserted + [flags[p] == 1];
    }
    r := Some(monitor.(occupancy := record[27..35], asserted := asserted));
  }

  /** A record that was written is of the monitors that agree with it, and brings its state back. */
  lemma MonitorComesBack(monitor: Ingress, written: Ingress, after: Ingress)
    ensures OfMonitor(IngressRecord(written), monitor) <==> SameMonitor(monitor, written)
    ensures Updated(IngressRecord(written), monitor, after) ==>
              after == monitor.(occupancy := written.occupancy, asserted := written.asserted)
  {
    hide IngressRecord;
    RecordWords(written);
    var record := IngressRecord(written);
    if Updated(record, monitor, after) {
      assert after.asserted == written.asserted;
    }
  }

  datatype QueueState = QueueState(paused: seq<set<U64>>, ingresses: seq<Ingress>)

  lemma MonitorsTell(words: seq<U64>, row: Row, width: nat, start: nat, k: nat)
    requires |row.paused| == PRIORITIES && RowAt(words, row, width, start) && row.tail.Monitors? && k < |row.tail.ingresses|
    ensures var from := start + ROW_HEADER_WORDS + |row.controllers| + PRIORITIES * width + k * INGRESS_WORDS;
            && 0 <= from <= from + INGRESS_WORDS <= |words|
            && words[from..from + INGRESS_WORDS] == IngressRecord(row.tail.ingresses[k])
  {
    hide Encodes, IngressRecord;
    var tail := start + ROW_HEADER_WORDS + |row.controllers| + PRIORITIES * width;
    var records := IngressRecords(row.tail.ingresses);
    RecordAt(row.tail.ingresses, k);
    PartAt(words, tail, records, k * INGRESS_WORDS, (k + 1) * INGRESS_WORDS);
  }

  /** The record of monitor `k` of the row at `start`. */
  function MonitorRecord(words: seq<U64>, start: nat, k: nat): (r: seq<U64>)
    requires start + ROW_HEADER_WORDS <= |words| && words[start + 4] + (k + 1) * INGRESS_WORDS <= |words|
    ensures |r| == INGRESS_WORDS
  {
    words[words[start + 4] + k * INGRESS_WORDS..words[start + 4] + (k + 1) * INGRESS_WORDS]
  }

  /** No word that the restoration of a queue reads lies outside the plane. */
  ghost predicate QueueReadable(words: seq<U64>, start: nat, monitors: nat) {
    PauseReadable(words, start) && (words[start + 1] == monitors ==> words[start + 4] + monitors * INGRESS_WORDS <= |words|)
  }

  ghost predicate OfMonitors(words: seq<U64>, start: nat, monitors: seq<Ingress>)
    requires QueueReadable(words, start, |monitors|)
  {
    words[start + 1] == |monitors| && forall k | 0 <= k < |monitors| :: OfMonitor(MonitorRecord(words, start, k), monitors[k])
  }

  /** Restores a switch queue from any plane that can be read. A queue without state must have no row;
      one with state gets the pause sets, occupancies and assertions of its row, and is refused exactly
      if the count or a fixed word of a monitor changed or an assertion is not a truth value. */
  method RestoreQueue(words: seq<U64>, region: nat, lp: nat, state: Option<QueueState>) returns (ok: bool, after: Option<QueueState>)
    requires region + lp < |words|
    requires state.Some? ==> QueueReadable(words, words[region + lp], |state.value.ingresses|)
    ensures state.None? ==> ok == (words[region + lp] == NONE) && after.None?
    ensures state.Some? ==> (ok <==> OfMonitors(words, words[region + lp], state.value.ingresses))
    ensures state.Some? && ok ==>
              && after.Some? && AreHeld(words, words[region + lp], after.value.paused)
              && |after.value.ingresses| == |state.value.ingresses|
              && forall k | 0 <= k < |after.value.ingresses| ::
                   Updated(MonitorRecord(words, words[region + lp], k), state.value.ingresses[k], after.value.ingresses[k])
  {
    hide AreHeld, Updated, OfMonitor;
    var start := words[region + lp];
    if state.None? {
      return start == NONE, None;
    }
    var monitors := state.value.ingresses;
    if words[start + 1] != |monitors| {
      return false, None;
    }
    var paused := RestorePaused(words, start);
    var restored: seq<Ingress> := [];
    for k: nat := 0 to |monitors|
      invariant |restored| == k && forall j | 0 <= j < k :: OfMonitor(MonitorRecord(words, start, j), monitors[j])
      invariant forall j | 0 <= j < k :: Updated(MonitorRecord(words, start, j), monitors[j], restored[j])
    {
      var monitor := RestoreMonitor(MonitorRecord(words, start, k), monitors[k]);
      if monitor.None? {
        return false, None;
      }
      restored := restored + [monitor.value];
    }
    return true, Some(QueueState(paused, restored));
  }

  /** A queue whose row stands is readable, is refused exactly if a monitor is not the written one, and
      otherwise comes back as it was written. */
  lemma QueueComesBack(words: seq<U64>, row: Row, width: nat, start: nat, state: QueueState, after: QueueState)
    requires RowHolds(words, row, width, start) && row.tail.Monitors?
    ensures QueueReadable(words, start, |state.ingresses|)
    ensures OfMonitors(words, start, state.ingresses) <==> SameMonitors(state.ingresses, row.tail.ingresses)
    ensures OfMonitors(words, start, state.ingresses) && AreHeld(words, start, after.paused) &&
            |after.ingresses| == |state.ingresses| &&
            (forall k | 0 <= k < |after.ingresses| ::
               Updated(MonitorRecord(words, start, k), state.ingresses[k], after.ingresses[k])) ==>
              && after.paused == row.paused
              && forall k | 0 <= k < |after.ingresses| ::
                   after.ingresses[k] == state.ingresses[k].(occupancy := row.tail.ingresses[k].occupancy,
                                                             asserted := row.tail.ingresses[k].asserted)
  {
    hide RowAt, AreHeld, Updated, OfMonitor, IngressRecord, SameMonitor;
    HeaderTells(words, row, width, start);
    RowIsReadable(words, row, width, start);
    var monitors := row.tail.ingresses;
    if |state.ingresses| == |monitors| {
      AllMonitorsTell(words, row, width, start);
      forall k | 0 <= k < |monitors|
        ensures OfMonitor(MonitorRecord(words, start, k), state.ingresses[k]) <==> SameMonitor(state.ingresses[k], monitors[k])
      {
        MonitorComesBack(state.ingresses[k], monitors[k], state.ingresses[k]);
      }
    }
    if OfMonitors(words, start, state.ingresses) && AreHeld(words, start, after.paused) {
      PausedComesBack(words, row, width, start, after.paused);
      forall k | 0 <= k < |after.ingresses| && |after.ingresses| == |state.ingresses| &&
                 Updated(MonitorRecord(words, start, k), state.ingresses[k], after.ingresses[k])
        ensures after.ingresses[k] == state.ingresses[k].(occupancy := monitors[k].occupancy, asserted := monitors[k].asserted)
      {
        MonitorComesBack(state.ingresses[k], monitors[k], after.ingresses[k]);
      }
    }
  }

  lemma AllMonitorsTell(words: seq<U64>, row: Row, width: nat, start: nat)
    requires RowHolds(words, row, width, start) && row.tail.Monitors? && start + ROW_HEADER_WORDS <= |words|
    requires words[start + 4] == start + ROW_HEADER_WORDS + |row.controllers| + PRIORITIES * width
    ensures words[start + 4] + |row.tail.ingresses| * INGRESS_WORDS <= |words|
    ensures forall k | 0 <= k < |row.tail.ingresses| :: MonitorRecord(words, start, k) == IngressRecord(row.tail.ingresses[k])
  {
    hide RowAt, IngressRecord;
    if |row.tail.ingresses| > 0 {
      MonitorsTell(words, row, width, start, |row.tail.ingresses| - 1);
    } else {
      BitsTell(words, row, width, start);
    }
    forall k | 0 <= k < |row.tail.ingresses|
      ensures MonitorRecord(words, start, k) == IngressRecord(row.tail.ingresses[k])
    {
      MonitorsTell(words, row, width, start, k);
    }
  }

  lemma PairsTell(words: seq<U64>, row: Row, width: nat, start: nat)
    requires |row.paused| == PRIORITIES && RowAt(words, row, width, start) && row.tail.Pairs?
    ensures var list := start + ROW_HEADER_WORDS + |row.controllers| + PRIORITIES * width;
            && 0 <= list <= list + 1 + |row.tail.flows| <= |words|
            && words[list] == |row.tail.flows| && words[list + 1..list + 1 + |row.tail.flows|] == row.tail.flows
  {
    hide Encodes;
    var list := start + ROW_HEADER_WORDS + |row.controllers| + PRIORITIES * width;
    var written := [|row.tail.flows|] + row.tail.flows;
    assert words[list..list + |written|] == written;
    assert words[list] == words[list..list + |written|][0];
    forall i | 0 <= i < |row.tail.flows|
      ensures words[list + 1 + i] == row.tail.flows[i]
    {
      assert words[list..list + |written|][1 + i] == written[1 + i];
    }
  }

  /** No word that the restoration of a host reads lies outside the plane. */
  ghost predicate HostReadable(words: seq<U64>, start: nat, pairs: nat) {
    && PauseReadable(words, start) && words[start + 4] < |words|
    && (words[words[start + 4]] == pairs ==> words[start + 4] + 1 + pairs <= |words|)
  }

  /** The row has no monitors and lists these queue pairs. */
  ghost predicate ListsPairs(words: seq<U64>, start: nat, pairs: seq<U64>)
    requires HostReadable(words, start, |pairs|)
  {
    var list := words[start + 4];
    words[start + 1] == 0 && words[list] == |pairs| && words[list + 1..list + 1 + |pairs|] == pairs
  }

  /** Restores a host's pause sets from any plane that can be read, after checking its queue pairs. */
  method RestoreHost(words: seq<U64>, region: nat, lp: nat, paused: Option<seq<set<U64>>>, pairs: seq<U64>)
    returns (ok: bool, after: Option<seq<set<U64>>>)
    requires region + lp < |words|
    requires paused.Some? ==> HostReadable(words, words[region + lp], |pairs|)
    ensures paused.None? ==> ok == (words[region + lp] == NONE) && after.None?
    ensures paused.Some? ==> (ok <==> ListsPairs(words, words[region + lp], pairs))
    ensures paused.Some? && ok ==> after.Some? && AreHeld(words, words[region + lp], after.value)
  {
    hide AreHeld;
    var start := words[region + lp];
    if paused.None? {
      return start == NONE, None;
    }
    var list := words[start + 4];
    if words[start + 1] != 0 || words[list] != |pairs| || words[list + 1..list + 1 + |pairs|] != pairs {
      return false, None;
    }
    var sets := RestorePaused(words, start);
    return true, Some(sets);
  }

  /** A host whose row stands is readable, and its list is that of the row. */
  lemma HostComesBack(words: seq<U64>, row: Row, width: nat, start: nat, pairs: seq<U64>)
    requires RowHolds(words, row, width, start) && row.tail.Pairs?
    ensures HostReadable(words, start, |pairs|) && (ListsPairs(words, start, pairs) <==> pairs == row.tail.flows)
  {
    hide RowAt;
    HeaderTells(words, row, width, start);
    PairsTell(words, row, width, start);
    RowIsReadable(words, row, width, start);
  }

  /** The words of monitor `k` of a row that stands are its fields, at their offsets: link, target and delay of its
      control channel, then for each priority capacity, both thresholds, occupancy and assertion. */
  lemma MonitorWords(words: seq<U64>, row: Row, width: nat, start: nat, k: nat, p: nat)
    requires |row.paused| == PRIORITIES && RowAt(words, row, width, start) && row.tail.Monitors? && k < |row.tail.ingresses|
    requires p < 8
    ensures var g := row.tail.ingresses[k];
            var from := start + 5 + |row.controllers| + 8 * width + 43 * k;
            && from + 43 <= |words|
            && words[from] == g.link && words[from + 1] == g.target && words[from + 2] == g.delay
            && words[from + 3 + p] == g.capacity[p] && words[from + 11 + p] == g.xoff[p] && words[from + 19 + p] == g.xon[p]
            && words[from + 27 + p] == g.occupancy[p] && words[from + 35 + p] == if g.asserted[p] then 1 else 0
  {
    hide IngressRecord, RowAt;
    MonitorsTell(words, row, width, start, k);
    var g := row.tail.ingresses[k];
    var from := start + 5 + |row.controllers| + 8 * width + 43 * k;
    var record := words[from..from + 43];
    FieldsOf(g, p);
    assert record[0] == words[from] && record[1] == words[from + 1] && record[2] == words[from + 2];
    assert record[3 + p] == words[from + 3 + p] && record[11 + p] == words[from + 11 + p];
    assert record[19 + p] == words[from + 19 + p] && record[27 + p] == words[from + 27 + p];
    assert record[35 + p] == words[from + 35 + p];
  }

  lemma FieldsOf(g: Ingress, p: nat)
    requires p < 8
    ensures var r := IngressRecord(g);
            && r[0] == g.link && r[1] == g.target && r[2] == g.delay && r[3 + p] == g.capacity[p] && r[11 + p] == g.xoff[p]
            && r[19 + p] == g.xon[p] && r[27 + p] == g.occupancy[p] && r[35 + p] == if g.asserted[p] then 1 else 0
  {
  }

  /** Equal records come only from equal monitors. */
  lemma RecordTellsMonitor(a: Ingress, b: Ingress)
    requires IngressRecord(a) == IngressRecord(b)
    ensures a == b
  {
    hide IngressRecord;
    FieldsOf(a, 0);
    FieldsOf(b, 0);
    forall p | 0 <= p < 8
      ensures a.capacity[p] == b.capacity[p] && a.xoff[p] == b.xoff[p] && a.xon[p] == b.xon[p]
      ensures a.occupancy[p] == b.occupancy[p] && a.asserted[p] == b.asserted[p]
    {
      FieldsOf(a, p);
      FieldsOf(b, p);
    }
    SameEight(a.capacity, b.capacity);
    SameEight(a.xoff, b.xoff);
    SameEight(a.xon, b.xon);
    SameEight(a.occupancy, b.occupancy);
    SameFlags(a.asserted, b.asserted);
  }

  lemma SameEight(a: Eight, b: Eight)
    requires forall p | 0 <= p < 8 :: a[p] == b[p]
    ensures a == b
  {
  }

  lemma SameFlags(a: Flags, b: Flags)
    requires forall p | 0 <= p < 8 :: a[p] == b[p]
    ensures a == b
  {
  }

  /** The pause bit of controller `b` for priority `p` is digit `b % 64` to the base 2 of the row's word `b / 64` for
      the priority, and tells whether the controller has that priority paused. */
  lemma PauseWords(words: seq<U64>, row: Row, width: nat, start: nat, p: nat, b: nat)
    requires |row.paused| == PRIORITIES && RowAt(words, row, width, start) && p < 8 && b < |row.controllers|
    ensures p * width >= 0 && Words.Pow2(b % 64) > 0
    ensures var at := start + 5 + |row.controllers| + p * width + b / 64;
            && at < |words|
            && (words[at] / Words.Pow2(b % 64) % 2 == 1 <==> row.controllers[b] in row.paused[p])
  {
    hide RowAt, SplitMix.Bit, Words.Pow2;
    BitsTell(words, row, width, start);
    var bitsets := start + 5 + |row.controllers|;
    var bits := words[bitsets..bitsets + 8 * width];
    assert Tells(bits, width, p, b, Member(row.controllers, row.paused, p, b));
    var at := RowStart(p, width) + b / 64;
    assert bits[at] == words[bitsets + at];
    BitIsDigit(bits[at], b % 64);
  }

  /** The rows are no wider than their longest controller list needs, and at least one word wide. */
  lemma {:induction false} WidthIsLeast(rows: seq<Row>, width: nat)
    requires width > 0 && forall k | 0 <= k < |rows| :: |rows[k].controllers| <= 64 * width
    ensures Width(rows) <= width
  {
    if rows != [] {
      WidthIsLeast(rows[..|rows| - 1], width);
      WordsAreLeast(|rows[|rows| - 1].controllers|, width);
    }
  }
}
