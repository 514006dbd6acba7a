/** The plane a device gets, schedulers and flow control together, and reading a scheduler back from it. */
module SchedulerRoundTrip {
  import opened Events
  import opened Planes
  import opened SchedulerPlane
  import opened SchedulerPrepare
  import SchedulerRestore
  import Rationals
  import PfcRegion

  /** What is appended to the plane leaves a node alone. */
  lemma StandsExtended(words: seq<U64>, after: seq<U64>, nodes: seq<Option<Queue>>, rings: seq<Ring>, seed: U64, j: U64)
    requires j < |nodes| == |rings| && Stands(words, nodes, rings, seed, j)
    requires |after| >= |words| && after[..|words|] == words
    ensures Stands(after, nodes, rings, seed, j)
  {
    hide Writable, Block, RampRecord, ClassRecords, Slot, HasAt, Tails;
    match nodes[j]
    case None => PartKept(words, after, j * NODE_WORDS, Block(None, Offsets(0, 0, 0)));
    case Some(q) =>
      NodeExtended(words, after, j, q, rings[j], seed, OffsetsFrom(q, |nodes| * NODE_WORDS + Tails(nodes, rings, j)));
  }

  lemma PartKept(words: seq<U64>, after: seq<U64>, from: nat, part: seq<nat>)
    requires HasAt(words, from, part) && |after| >= |words| && after[..|words|] == words
    ensures HasAt(after, from, part)
  {
    assert after[from..from + |part|] == after[..|words|][from..from + |part|];
  }

  lemma NodeExtended(words: seq<U64>, after: seq<U64>, j: U64, q: Queue, ring: Ring, seed: U64, at: Offsets)
    requires Writable(q) && NodeAt(words, j, q, ring, seed, at)
    requires |after| >= |words| && after[..|words|] == words
    ensures NodeAt(after, j, q, ring, seed, at)
  {
    hide Block, RampRecord, ClassRecords, Slot, HasAt, Rationals.WriteRational, Rationals.Fits;
    PartKept(words, after, j * NODE_WORDS, Block(Some(q), at));
    PartKept(words, after, at.classes, ClassRecords(q.scheduler, Classes(q.scheduler)));
    if q.ramp.Some? {
      PartKept(words, after, at.ramp, RampRecord(q.ramp.value, seed, j).value);
    }
    if q.scheduler.Wfq? {
      forall i: nat | i < |q.packets|
        ensures HasAt(after, at.tags + Slot(ring, i) * Rationals.RATIONAL_WORDS,
                      Rationals.WriteRational(q.scheduler.tags[q.packets[i]]))
      {
        PartKept(words, after, at.tags + Slot(ring, i) * Rationals.RATIONAL_WORDS,
                 Rationals.WriteRational(q.scheduler.tags[q.packets[i]]));
      }
    }
  }

  /** Lays out the schedulers and appends the flow control region. It fails exactly if some state does
      not fit or the whole is too long, and takes exactly the words counted beforehand. */
  method LayOut(nodes: seq<Option<Queue>>, rings: seq<Ring>, seed: U64, classes: seq<U64>, rows: seq<PfcRegion.Row>)
    returns (r: Option<seq<U64>>, region: Option<nat>, count: Option<nat>)
    requires |nodes| == |rings| && |nodes| * NODE_WORDS <= U64_MAX
    requires forall j | 0 <= j < |nodes| && nodes[j].Some? :: Proper(nodes[j].value, rings[j])
    requires PfcRegion.DistinctLps(rows) && forall k | 0 <= k < |rows| :: PfcRegion.ValidRow(rows[k], |nodes|)
    ensures r.Some? <==> AllWritable(nodes, |nodes|) && PfcRegion.AllKnown(rows, |rows|, |classes|) && count.Some?
    ensures count.Some? <==> PlaneWords(nodes, rings) + PfcRegion.RegionWords(|nodes|, |classes|, rows) <= U64_MAX
    ensures r.Some? ==> |r.value| == (if nodes == [] then 0 else count.value)
    ensures r.Some? ==> AllStand(r.value, nodes, rings, seed, |nodes|)
    ensures r.Some? && rows != [] ==>
              && region == Some(PlaneWords(nodes, rings))
              && PfcRegion.AllEntered(r.value, PlaneWords(nodes, rings), rows, PfcRegion.Width(rows),
                                      PlaneWords(nodes, rings) + |nodes| + |classes|, |rows|)
              && PfcRegion.OthersHaveNone(r.value, PlaneWords(nodes, rings), |nodes|, rows, |rows|)
  {
    hide Writable, Proper, Stands, PfcRegion.AllEntered, PfcRegion.Width, PfcRegion.RowsLength, Tails, PfcRegion.KnownFlows,
         PfcRegion.OthersHaveNone;
    NoRows(nodes, rings, rows);
    count := CountWords(nodes, rings, PfcRegion.RegionWords(|nodes|, |classes|, rows));
    region := None;
    r := PrepareSchedulers(nodes, rings, seed);
    if r.None? {
      return;
    }
    var words := r.value;
    r, region := PfcRegion.AppendRegion(words, |nodes|, classes, rows);
    if r.Some? {
      forall j: U64 | j < |nodes|
        ensures Stands(r.value, nodes, rings, seed, j)
      {
        StandsExtended(words, r.value, nodes, rings, seed, j);
      }
    }
  }

  /** Without nodes there are no rows, and the plane is empty. */
  lemma NoRows(nodes: seq<Option<Queue>>, rings: seq<Ring>, rows: seq<PfcRegion.Row>)
    requires |nodes| == |rings| && forall k | 0 <= k < |rows| :: PfcRegion.ValidRow(rows[k], |nodes|)
    ensures nodes == [] ==> rows == [] && PlaneWords(nodes, rings) == 0
    ensures nodes != [] ==> PlaneWords(nodes, rings) > 0
  {
    if rows != [] {
      assert PfcRegion.ValidRow(rows[0], |nodes|);
    }
  }

  /** Laying the schedulers out and restoring one into an image succeeds exactly if the image agrees with it
      in what images fix; then the scheduler that was laid out comes back, whatever else lies in the plane. */
  method ComesBack(nodes: seq<Option<Queue>>, rings: seq<Ring>, seed: U64, classes: seq<U64>, rows: seq<PfcRegion.Row>,
                   node: U64, image: Queue) returns (fits: bool, restored: Option<Scheduler>)
    requires |nodes| == |rings| && |nodes| * NODE_WORDS <= U64_MAX
    requires forall j | 0 <= j < |nodes| && nodes[j].Some? :: Proper(nodes[j].value, rings[j])
    requires PfcRegion.DistinctLps(rows) && forall k | 0 <= k < |rows| :: PfcRegion.ValidRow(rows[k], |nodes|)
    requires node < |nodes| && nodes[node].Some?
    requires image.packets == nodes[node].value.packets && image.inService == nodes[node].value.inService
    ensures fits <==> AllWritable(nodes, |nodes|) && PfcRegion.AllKnown(rows, |rows|, |classes|) &&
                      PlaneWords(nodes, rings) + PfcRegion.RegionWords(|nodes|, |classes|, rows) <= U64_MAX
    ensures fits ==>
              (restored.Some? <==>
                 && SchedulerRestore.SameKind(image.scheduler, nodes[node].value.scheduler)
                 && SchedulerRestore.SameRamp(image.ramp, nodes[node].value.ramp, seed, node))
    ensures fits && restored.Some? && !image.scheduler.StaticPriority? ==>
              (restored.value == nodes[node].value.scheduler <==> NoOtherTag(nodes[node].value))
    ensures fits && restored.Some? && image.scheduler.StaticPriority? ==> restored.value == image.scheduler
  {
    hide Proper, NodeAt, Block, SchedulerRestore.SameRamp, SchedulerRestore.IsRead, PfcRegion.AllEntered, PfcRegion.Width,
      PfcRegion.RowsLength, Tails;
    var plane, region, count := LayOut(nodes, rings, seed, classes, rows);
    fits, restored := plane.Some?, None;
    if fits {
      ghost var q := nodes[node].value;
      assert Stands(plane.value, nodes, rings, seed, node);
      ghost var at := OffsetsFrom(q, |nodes| * NODE_WORDS + Tails(nodes, rings, node));
      restored := SchedulerRestore.RestoreScheduler(plane.value, node, seed, rings[node], image);
      SchedulerRestore.ReadableAgain(plane.value, node, seed, rings[node], image, q, at);
      if restored.Some? {
        SchedulerRestore.ComesBack(plane.value, node, seed, rings[node], image, q, at, restored.value);
      }
    }
  }
}
