/** Priority flow control from an image to the plane and back: rows are built for the queues and hosts
with pause state, laid out, and read into an image again. */
module PfcRoundTrip {
  import opened Basics
  import opened Events
  import opened Planes
  import opened Bitsets
  import opened PfcRows
  import opened PfcRegion
  import opened PfcRestore

  /** A node: without pause state, a switch queue, or a host with its generators, of which some are
      queue pairs; `parked` holds positions of generators. */
  datatype Node =
    | Plain
    | Switched(egress: Option<U64>, state: QueueState)
    | Hosted(uplink: U64, paused: seq<set<U64>>, flows: seq<U64>, isPair: seq<bool>, parked: seq<set<nat>>)

  ghost predicate ValidNode(n: Node) {
    match n
    case Plain => true
    case Switched(_, state) => |state.paused| == PRIORITIES
    case Hosted(_, paused, flows, isPair, parked) =>
      |paused| == |parked| == PRIORITIES && |flows| == |isPair| <= U64_MAX
  }

  ghost predicate ValidNodes(nodes: seq<Node>) { |nodes| <= U64_MAX && forall lp | 0 <= lp < |nodes| :: ValidNode(nodes[lp]) }

  /** The switches and the links that their monitors control. */
  function Switches(nodes: seq<Node>): seq<Switch>
    requires |nodes| <= U64_MAX
  {
    seq(|nodes|, lp requires 0 <= lp < |nodes| => Switch(lp, ControlledBy(nodes[lp])))
  }

  function ControlledBy(n: Node): set<U64> {
    if n.Switched? then set k | 0 <= k < |n.state.ingresses| :: n.state.ingresses[k].link else {}
  }

  /** The flows of the queue pairs among the first `n` generators. */
  function PairFlows(flows: seq<U64>, isPair: seq<bool>, n: nat): (r: seq<U64>)
    requires n <= |flows| == |isPair|
    ensures |r| == SlotOf(isPair, n)
  {
    if n == 0 then [] else PairFlows(flows, isPair, n - 1) + if isPair[n - 1] then [flows[n - 1]] else []
  }

  function Pairs(n: Node): seq<U64>
    requires n.Hosted? && |n.flows| == |n.isPair|
  {
    PairFlows(n.flows, n.isPair, |n.flows|)
  }

  /** Every parked position of the host is that of a queue pair. */
  ghost predicate ParksPairs(n: Node) {
    n.Hosted? ==> forall p, x | 0 <= p < |n.parked| && x in n.parked[p] :: IsPair(n.isPair, x)
  }

  /** The row tells the pauses of the node, and its monitors or queue pairs with those parked. */
  ghost predicate RowOf(n: Node, row: Row) {
    match n
    case Plain => false
    case Switched(_, state) => row.paused == state.paused && row.tail == Monitors(state.ingresses)
    case Hosted(_, paused, flows, isPair, parked) =>
      && |flows| == |isPair| && |parked| == PRIORITIES
      && row.paused == paused && row.tail.Pairs? && row.tail.flows == Pairs(n) && |row.tail.parked| == PRIORITIES
      && forall p, s: U64 | 0 <= p < PRIORITIES :: s in row.tail.parked[p] <==> ParkedBefore(isPair, parked[p], |isPair|, s)
  }

  /** The link that the node sends on. */
  function EgressOf(n: Node): Option<U64> {
    match n
    case Plain => None
    case Switched(egress, _) => egress
    case Hosted(uplink, _, _, _, _) => Some(uplink)
  }

  function PausedOf(n: Node): seq<set<U64>> {
    match n
    case Plain => []
    case Switched(_, state) => state.paused
    case Hosted(_, paused, _, _, _) => paused
  }

  /** The controllers of the row are, ascending, the switches that monitor the link of the node and whoever
      holds it paused. */
  ghost predicate Controlled(nodes: seq<Node>, row: Row)
    requires |nodes| <= U64_MAX && row.lp < |nodes|
  {
    && Ascending(row.controllers)
    && forall x: U64 :: x in row.controllers <==>
         Controls(Switches(nodes), EgressOf(nodes[row.lp]), x) || PfcRows.Holds(PausedOf(nodes[row.lp]), x)
  }

  /** The slots of the parked queue pairs, class by class. */
  method MapParked(isPair: seq<bool>, parked: seq<set<nat>>) returns (slots: Option<seq<set<U64>>>)
    requires |isPair| <= U64_MAX
    ensures slots.Some? <==> forall p, x | 0 <= p < |parked| && x in parked[p] :: IsPair(isPair, x)
    ensures slots.Some? ==>
              && |slots.value| == |parked|
              && (forall p, s: U64 | 0 <= p < |parked| :: s in slots.value[p] <==> ParkedBefore(isPair, parked[p], |isPair|, s))
              && (forall p, s | 0 <= p < |parked| && s in slots.value[p] :: s < SlotOf(isPair, |isPair|))
  {
    hide IsPair, ParkedBefore, SlotOf;
    var mapped: seq<set<U64>> := [];
    for p := 0 to |parked|
      invariant |mapped| == p && forall q, x | 0 <= q < p && x in parked[q] :: IsPair(isPair, x)
      invariant forall q, s: U64 | 0 <= q < p :: s in mapped[q] <==> ParkedBefore(isPair, parked[q], |isPair|, s)
      invariant forall q, s | 0 <= q < p && s in mapped[q] :: s < SlotOf(isPair, |isPair|)
    {
      var one := ParkedSlots(isPair, parked[p]);
      if one.None? {
        return None;
      }
      mapped := mapped + [one.value];
    }
    return Some(mapped);
  }

  /** The flows of the queue pairs, in the order of the generators. */
  method ListPairs(flows: seq<U64>, isPair: seq<bool>) returns (pairs: seq<U64>)
    requires |flows| == |isPair|
    ensures pairs == PairFlows(flows, isPair, |flows|)
  {
    pairs := [];
    for n: nat := 0 to |flows|
      invariant pairs == PairFlows(flows, isPair, n)
    {
      if isPair[n] {
        pairs := pairs + [flows[n]];
      }
    }
  }

  /** Builds the row of a node with pause state. Fails exactly if a parked generator is no queue pair. */
  method BuildRow(nodes: seq<Node>, lp: nat) returns (row: Option<Row>)
    requires ValidNodes(nodes) && lp < |nodes| && !nodes[lp].Plain?
    ensures row.Some? <==> ParksPairs(nodes[lp])
    ensures row.Some? ==> row.value.lp == lp && RowOf(nodes[lp], row.value) && ValidRow(row.value, |nodes|)
    ensures row.Some? ==> Controlled(nodes, row.value)
  {
    hide Distinct, Switches, Controls, ParkedBefore, SlotOf, PairFlows;
    var n := nodes[lp];
    assert ValidNode(n);
    match n {
      case Switched(egress, state) =>
        var controllers := LinkControllers(Switches(nodes), egress, state.paused);
        HoldersListed(controllers, state.paused);
        return Some(Row(lp, controllers, state.paused, Monitors(state.ingresses)));
      case Hosted(uplink, paused, flows, isPair, parked) =>
        var controllers := LinkControllers(Switches(nodes), Some(uplink), paused);
        HoldersListed(controllers, paused);
        var slots := MapParked(isPair, parked);
        if slots.None? {
          return None;
        }
        var pairs := ListPairs(flows, isPair);
        return Some(Row(lp, controllers, paused, Tail.Pairs(pairs, slots.value)));
    }
  }

  lemma HoldersListed(controllers: seq<U64>, paused: seq<set<U64>>)
    requires forall x | PfcRows.Holds(paused, x) :: x in controllers
    ensures forall p, x | 0 <= p < |paused| && x in paused[p] :: x in controllers
  {
    forall p, x | 0 <= p < |paused| && x in paused[p]
      ensures x in controllers
    {
      assert PfcRows.Holds(paused, x);
    }
  }

  /** The rows are those of the nodes before `n` that have pause state, by node. */
  ghost predicate RowsOf(nodes: seq<Node>, rows: seq<Row>, n: nat)
    requires n <= |nodes| <= U64_MAX
  {
    && (forall k | 0 <= k < |rows| ::
          rows[k].lp < n && RowOf(nodes[rows[k].lp], rows[k]) && ValidRow(rows[k], |nodes|) && Controlled(nodes, rows[k]))
    && (forall i, j | 0 <= i < j < |rows| :: rows[i].lp < rows[j].lp)
    && (forall lp | 0 <= lp < n && !nodes[lp].Plain? :: HasRow(rows, lp))
  }

  ghost predicate HasRow(rows: seq<Row>, lp: nat) { exists k :: 0 <= k < |rows| && rows[k].lp == lp }

  lemma RowsNext(nodes: seq<Node>, rows: seq<Row>, n: nat, row: Row)
    requires n < |nodes| <= U64_MAX && RowsOf(nodes, rows, n) && row.lp == n && RowOf(nodes[n], row) && ValidRow(row, |nodes|)
    requires Controlled(nodes, row)
    ensures RowsOf(nodes, rows + [row], n + 1)
  {
    hide RowOf, ValidRow, Controlled;
    var more, next := rows + [row], n + 1;
    forall lp | 0 <= lp < next && !nodes[lp].Plain?
      ensures HasRow(more, lp)
    {
      if lp == n {
        assert more[|rows|].lp == lp;
      } else {
        assert HasRow(rows, lp);
        var k :| 0 <= k < |rows| && rows[k].lp == lp;
        assert more[k].lp == lp;
      }
    }
  }

  ghost predicate AllParkPairs(nodes: seq<Node>, n: nat)
    requires n <= |nodes|
  {
    forall lp | 0 <= lp < n :: ParksPairs(nodes[lp])
  }

  /** Builds the rows of all nodes. */
  method BuildRows(nodes: seq<Node>) returns (rows: Option<seq<Row>>)
    requires ValidNodes(nodes)
    ensures rows.Some? <==> AllParkPairs(nodes, |nodes|)
    ensures rows.Some? ==> RowsOf(nodes, rows.value, |nodes|)
  {
    hide RowOf, ValidRow, ParksPairs, ValidNode, Controlled;
    var built: seq<Row> := [];
    for lp: nat := 0 to |nodes|
      invariant RowsOf(nodes, built, lp) && AllParkPairs(nodes, lp)
    {
      if nodes[lp].Plain? {
        PlainParksNone(nodes[lp]);
      } else {
        var row := BuildRow(nodes, lp);
        if row.None? {
          return None;
        }
        RowsNext(nodes, built, lp, row.value);
        built := built + [row.value];
      }
    }
    return Some(built);
  }

  lemma PlainParksNone(n: Node)
    requires n.Plain?
    ensures ParksPairs(n)
  {
  }

  /** The kinds agree, or the image has no pause state. */
  predicate SameKind(image: Node, n: Node) {
    image.Plain? || (image.Switched? && n.Switched?) || (image.Hosted? && n.Hosted?)
  }

  /** What an image must share with what was laid out: kinds, monitors and queue pairs. */
  ghost predicate SameFixed(image: Node, n: Node)
    requires ValidNode(image) && ValidNode(n)
  {
    match (image, n)
    case (Plain, Plain) => true
    case (Switched(_, a), Switched(_, b)) => SameMonitors(a.ingresses, b.ingresses)
    case (Hosted(_, _, _, _, _), Hosted(_, _, _, _, _)) => Pairs(image) == Pairs(n)
    case _ => false
  }

  /** The image's node with the pause state that was laid out. */
  ghost predicate ComesBackAs(image: Node, n: Node, after: Node) {
    match (image, n)
    case (Switched(egress, a), Switched(_, b)) =>
      && after.Switched? && after.egress == egress && after.state.paused == b.paused
      && |after.state.ingresses| == |a.ingresses| == |b.ingresses|
      && forall k | 0 <= k < |a.ingresses| ::
           after.state.ingresses[k] == a.ingresses[k].(occupancy := b.ingresses[k].occupancy, asserted := b.ingresses[k].asserted)
    case (Hosted(_, _, _, _, _), Hosted(_, paused, _, _, _)) => after == image.(paused := paused)
    case _ => after == image
  }

  /** The region stands in the plane: every node with pause state has its row, and no other has one. */
  ghost predicate RegionStands(words: seq<U64>, region: nat, nodes: seq<Node>, rows: seq<Row>, floor: nat) {
    && |nodes| <= U64_MAX && RowsOf(nodes, rows, |nodes|)
    && AllEntered(words, region, rows, Width(rows), floor, |rows|) && OthersHaveNone(words, region, |nodes|, rows, |rows|)
  }

  /** A node with pause state finds its row. */
  lemma FindsRow(words: seq<U64>, region: nat, nodes: seq<Node>, rows: seq<Row>, floor: nat, lp: nat) returns (row: Row)
    requires RegionStands(words, region, nodes, rows, floor) && lp < |nodes| && !nodes[lp].Plain?
    ensures region + lp < |words| && RowOf(nodes[lp], row) && RowHolds(words, row, Width(rows), words[region + lp])
  {
    hide RowAt, RowOf, OthersHaveNone, Width;
    assert HasRow(rows, lp);
    var k :| 0 <= k < |rows| && rows[k].lp == lp;
    row := rows[k];
    assert Entered(words, region, rows, Width(rows), floor, k);
    assert ValidRow(rows[k], |nodes|);
    WideEnough(rows, k);
  }

  lemma WideEnough(rows: seq<Row>, k: nat)
    requires k < |rows|
    ensures |rows[k].controllers| <= 64 * Width(rows)
  {
  }

  /** A node without pause state finds none. */
  lemma FindsNone(words: seq<U64>, region: nat, nodes: seq<Node>, rows: seq<Row>, floor: nat, lp: nat)
    requires RegionStands(words, region, nodes, rows, floor) && lp < |nodes| && nodes[lp].Plain?
    ensures region + lp < |words| && words[region + lp] == NONE
  {
    hide RowAt, AllEntered;
    forall k | 0 <= k < |rows|
      ensures rows[k].lp != lp
    {
      assert RowOf(nodes[rows[k].lp], rows[k]);
    }
    assert HasNoRow(rows, |rows|, lp);
  }

  /** A row's place is never that of an absent row. */
  lemma RowIsSomewhere(words: seq<U64>, row: Row, width: nat, start: nat)
    requires RowHolds(words, row, width, start) && |words| <= U64_MAX
    ensures start != NONE
  {
    hide RowAt;
    HeaderTells(words, row, width, start);
  }

  /** Restores one node. It is refused exactly if the image does not share what images fix. */
  method RestoreNode(words: seq<U64>, region: nat, lp: nat, image: Node, ghost nodes: seq<Node>, ghost rows: seq<Row>,
                     ghost floor: nat) returns (ok: bool, after: Node)
    requires RegionStands(words, region, nodes, rows, floor) && |words| <= U64_MAX && lp < |nodes| && ValidNodes(nodes)
    requires ValidNode(image) && SameKind(image, nodes[lp])
    ensures ok <==> SameFixed(image, nodes[lp])
    ensures ok ==> ComesBackAs(image, nodes[lp], after)
  {
    hide RegionStands, RowHolds, AreHeld, QueueReadable, OfMonitors, Updated, SameMonitors, ListsPairs, PauseReadable, PairFlows;
    after := image;
    ghost var width := Width(rows);
    ghost var row: Row;
    if nodes[lp].Plain? {
      FindsNone(words, region, nodes, rows, floor, lp);
    } else {
      row := FindsRow(words, region, nodes, rows, floor, lp);
      RowIsSomewhere(words, row, width, words[region + lp]);
    }
    assert ValidNode(nodes[lp]);
    match image {
      case Plain =>
        var none;
        ok, none := RestoreQueue(words, region, lp, None);
      case Switched(egress, state) =>
        var queue;
        QueueComesBack(words, row, width, words[region + lp], state, state);
        ok, queue := RestoreQueue(words, region, lp, Some(state));
        if ok {
          QueueComesBack(words, row, width, words[region + lp], state, queue.value);
          MonitorsMatch(state.ingresses, row.tail.ingresses);
          after := Switched(egress, queue.value);
        }
      case Hosted(_, paused, flows, isPair, _) =>
        var pairs := ListPairs(flows, isPair);
        HostComesBack(words, row, width, words[region + lp], pairs);
        var sets;
        ok, sets := RestoreHost(words, region, lp, Some(paused), pairs);
        if ok {
          HostIsReadable(words, words[region + lp], |pairs|);
          PausedComesBack(words, row, width, words[region + lp], sets.value);
          after := image.(paused := sets.value);
        }
    }
  }

  lemma MonitorsMatch(a: seq<Ingress>, b: seq<Ingress>)
    requires SameMonitors(a, b)
    ensures |a| == |b|
  {
  }

  lemma HostIsReadable(words: seq<U64>, start: nat, pairs: nat)
    requires HostReadable(words, start, pairs)
    ensures PauseReadable(words, start)
  {
  }

  ghost predicate SameKinds(image: seq<Node>, nodes: seq<Node>) {
    |image| == |nodes| && forall lp | 0 <= lp < |nodes| :: SameKind(image[lp], nodes[lp])
  }

  ghost predicate AllSameFixed(image: seq<Node>, nodes: seq<Node>, n: nat)
    requires n <= |image| == |nodes| && ValidNodes(image) && ValidNodes(nodes)
  {
    forall lp | 0 <= lp < n :: SameFixed(image[lp], nodes[lp])
  }

  /** Restores all nodes from a region that stands. */
  method RestoreNodes(words: seq<U64>, region: nat, image: seq<Node>, ghost nodes: seq<Node>, ghost rows: seq<Row>, ghost floor: nat)
    returns (ok: bool, after: seq<Node>)
    requires RegionStands(words, region, nodes, rows, floor) && |words| <= U64_MAX
    requires ValidNodes(nodes) && ValidNodes(image) && SameKinds(image, nodes)
    ensures ok <==> AllSameFixed(image, nodes, |nodes|)
    ensures ok ==> |after| == |nodes| && forall lp | 0 <= lp < |nodes| :: ComesBackAs(image[lp], nodes[lp], after[lp])
  {
    hide RegionStands, SameFixed, ComesBackAs;
    after := [];
    for lp: nat := 0 to |image|
      invariant |after| == lp && AllSameFixed(image, nodes, lp)
      invariant forall k | 0 <= k < lp :: ComesBackAs(image[k], nodes[k], after[k])
    {
      var one, node := RestoreNode(words, region, lp, image[lp], nodes, rows, floor);
      if !one {
        return false, after;
      }
      after := after + [node];
    }
    ok := true;
  }

  /** Every queue pair has a known flow. */
  ghost predicate FlowsKnown(nodes: seq<Node>, flowCount: nat)
    requires ValidNodes(nodes)
  {
    forall lp | 0 <= lp < |nodes| :: KnownPairs(nodes[lp], flowCount)
  }

  ghost predicate KnownPairs(n: Node, flowCount: nat)
    requires ValidNode(n)
  {
    n.Hosted? ==> forall i | 0 <= i < |Pairs(n)| :: Pairs(n)[i] < flowCount
  }

  lemma RowsKnowFlows(nodes: seq<Node>, rows: seq<Row>, flowCount: nat)
    requires ValidNodes(nodes) && RowsOf(nodes, rows, |nodes|)
    ensures AllKnown(rows, |rows|, flowCount) <==> FlowsKnown(nodes, flowCount)
  {
    hide PairFlows, ValidRow;
    if AllKnown(rows, |rows|, flowCount) {
      forall lp | 0 <= lp < |nodes|
        ensures KnownPairs(nodes[lp], flowCount)
      {
        if nodes[lp].Hosted? {
          assert HasRow(rows, lp);
          var k :| 0 <= k < |rows| && rows[k].lp == lp;
          assert RowOf(nodes[lp], rows[k]) && KnownFlows(rows[k].tail, flowCount);
        }
      }
    }
    if FlowsKnown(nodes, flowCount) {
      forall k | 0 <= k < |rows|
        ensures KnownFlows(rows[k].tail, flowCount)
      {
        assert RowOf(nodes[rows[k].lp], rows[k]) && KnownPairs(nodes[rows[k].lp], flowCount);
      }
    }
  }

  /** Flow control state laid out at the end of a plane and restored into an image comes back: it fits
      exactly if every parked generator is a queue pair, every queue pair has a known flow and the plane
      is not too long; the image is refused exactly if it does not share what images fix; otherwise
      every queue and host gets the pause sets, occupancies and assertions that were laid out. */
  method ComesBack(words: seq<U64>, nodes: seq<Node>, classes: seq<U64>, image: seq<Node>)
    returns (fits: bool, ok: bool, after: seq<Node>, ghost rows: seq<Row>)
    requires |words| <= U64_MAX && ValidNodes(nodes) && ValidNodes(image) && SameKinds(image, nodes)
    ensures AllParkPairs(nodes, |nodes|) ==> RowsOf(nodes, rows, |nodes|)
    ensures fits <==>
            && AllParkPairs(nodes, |nodes|) && FlowsKnown(nodes, |classes|)
            && |words| + RegionWords(|nodes|, |classes|, rows) <= U64_MAX
    ensures fits ==> (ok <==> AllSameFixed(image, nodes, |nodes|))
    ensures fits && ok ==> |after| == |nodes| && forall lp | 0 <= lp < |nodes| :: ComesBackAs(image[lp], nodes[lp], after[lp])
  {
    hide AllEntered, OthersHaveNone, SameFixed, ComesBackAs, ValidNode, RowOf, ValidRow, FlowsKnown, KnownFlows, Controlled;
    fits, ok, after, rows := false, false, image, [];
    var built := BuildRows(nodes);
    if built.None? {
      return;
    }
    rows := built.value;
    RowsKnowFlows(nodes, rows, |classes|);
    var plane, region := AppendRegion(words, |nodes|, classes, built.value);
    fits := plane.Some?;
    if !fits {
      return;
    }
    if region.None? {
      ok := AllPlain(image);
      NoRowsAllPlain(image, nodes, built.value);
      return;
    }
    ok, after := RestoreNodes(plane.value, region.value, image, nodes, built.value, |words| + |nodes| + |classes|);
  }

  predicate AllPlain(image: seq<Node>) { forall lp | 0 <= lp < |image| :: image[lp].Plain? }

  /** Without rows no node has pause state, so an image of the same kinds has none. */
  lemma NoRowsAllPlain(image: seq<Node>, nodes: seq<Node>, rows: seq<Row>)
    requires ValidNodes(image) && ValidNodes(nodes) && SameKinds(image, nodes) && RowsOf(nodes, rows, |nodes|) && rows == []
    ensures AllPlain(image) && AllSameFixed(image, nodes, |nodes|)
    ensures forall lp | 0 <= lp < |nodes| :: ComesBackAs(image[lp], nodes[lp], image[lp])
  {
    forall lp | 0 <= lp < |nodes|
      ensures nodes[lp].Plain? && image[lp].Plain?
    {
      assert HasRow(rows, lp) || nodes[lp].Plain?;
    }
  }

  /** Restoring into the image that was laid out is never refused and changes nothing. */
  lemma ImageComesBack(n: Node, after: Node)
    requires ValidNode(n)
    ensures SameFixed(n, n)
    ensures ComesBackAs(n, n, after) ==> after == n
  {
    if n.Switched? && ComesBackAs(n, n, after) {
      assert after.state.ingresses == n.state.ingresses;
    }
  }

  /** The row of a node is determined by the nodes. */
  lemma OneRow(nodes: seq<Node>, a: Row, b: Row)
    requires |nodes| <= U64_MAX && a.lp == b.lp < |nodes| && Controlled(nodes, a) && Controlled(nodes, b)
    requires RowOf(nodes[a.lp], a) && RowOf(nodes[a.lp], b)
    ensures a == b
  {
    hide Controls, Switches, ParkedBefore, PairFlows;
    OneAscending(a.controllers, b.controllers);
    if nodes[a.lp].Hosted? {
      forall p | 0 <= p < PRIORITIES
        ensures a.tail.parked[p] == b.tail.parked[p]
      {
      }
    }
  }

  function Lps(rows: seq<Row>): seq<nat> { seq(|rows|, k requires 0 <= k < |rows| => rows[k].lp) }

  lemma LpsTell(nodes: seq<Node>, rows: seq<Row>, lp: nat)
    requires |nodes| <= U64_MAX && RowsOf(nodes, rows, |nodes|)
    ensures lp in Lps(rows) <==> lp < |nodes| && !nodes[lp].Plain?
    ensures Ascending(Lps(rows))
  {
    hide Controlled, ValidRow;
    if lp in Lps(rows) {
      var k :| 0 <= k < |rows| && Lps(rows)[k] == lp;
      assert RowOf(nodes[rows[k].lp], rows[k]);
    }
    if lp < |nodes| && !nodes[lp].Plain? {
      assert HasRow(rows, lp);
      var k :| 0 <= k < |rows| && rows[k].lp == lp;
      assert Lps(rows)[k] == lp;
    }
  }

  /** So the rows, and with them the words that the region takes, are determined by the nodes. */
  lemma RowsAreDetermined(nodes: seq<Node>, a: seq<Row>, b: seq<Row>)
    requires |nodes| <= U64_MAX && RowsOf(nodes, a, |nodes|) && RowsOf(nodes, b, |nodes|)
    ensures a == b
  {
    hide Controlled, ValidRow, RowOf;
    forall lp: nat
      ensures lp in Lps(a) <==> lp in Lps(b)
    {
      LpsTell(nodes, a, lp);
      LpsTell(nodes, b, lp);
    }
    LpsTell(nodes, a, 0);
    LpsTell(nodes, b, 0);
    OneAscending(Lps(a), Lps(b));
    forall k | 0 <= k < |a|
      ensures |b| == |a| && a[k] == b[k]
    {
      assert Lps(a)[k] == Lps(b)[k];
      OneRow(nodes, a[k], b[k]);
    }
    assert |a| == |Lps(a)| == |Lps(b)| == |b|;
  }
}
