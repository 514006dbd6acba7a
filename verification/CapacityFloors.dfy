/** Retry floors kept for single streams, receiver classes and flows, and their snapshots. */
module CapacityFloors {
  import opened Basics
  import opened Events
  import opened CapacityLaws

  /** The floors of a warm start: for each key the largest capacity given. */
  ghost predicate IsMerged(pairs: seq<(nat, U64)>, merged: map<nat, U64>) {
    && (forall key :: key in merged <==> exists i :: 0 <= i < |pairs| && pairs[i].0 == key)
    && (forall i | 0 <= i < |pairs| :: pairs[i].1 <= merged[pairs[i].0])
    && (forall key | key in merged :: exists i :: 0 <= i < |pairs| && pairs[i] == (key, merged[key]))
  }

  method MergePairs(pairs: seq<(nat, U64)>) returns (merged: map<nat, U64>)
    ensures IsMerged(pairs, merged)
  {
    merged := map[];
    for n := 0 to |pairs|
      invariant IsMerged(pairs[..n], merged)
    {
      var key, capacity := pairs[n].0, pairs[n].1;
      var now: U64 := if key in merged then Max(merged[key], capacity) else capacity;
      MergeOne(pairs, n, merged, now);
      merged := merged[key := now];
    }
    assert pairs[..|pairs|] == pairs;
  }

  lemma MergeOne(pairs: seq<(nat, U64)>, n: nat, merged: map<nat, U64>, now: U64)
    requires n < |pairs| && IsMerged(pairs[..n], merged)
    requires now == if pairs[n].0 in merged then Max(merged[pairs[n].0], pairs[n].1) else pairs[n].1
    ensures IsMerged(pairs[..n + 1], merged[pairs[n].0 := now])
  {
    var before, after, key := pairs[..n], pairs[..n + 1], pairs[n].0;
    var more := merged[key := now];
    assert after[n] == pairs[n];
    assert forall i | 0 <= i < n :: after[i] == before[i];
    forall k | k in more
      ensures exists i :: 0 <= i < |after| && after[i] == (k, more[k])
    {
      if k == key && now == pairs[n].1 {
        assert after[n] == (k, more[k]);
      } else {
        var i :| 0 <= i < |before| && before[i] == (k, merged[k]);
        assert after[i] == (k, more[k]);
      }
    }
    forall k
      ensures k in more <==> exists i :: 0 <= i < |after| && after[i].0 == k
    {
      if k in merged {
        var i :| 0 <= i < |before| && before[i].0 == k;
        assert after[i].0 == k;
      }
      if i :| 0 <= i < |after| && after[i].0 == k {
        assert i == n || before[i].0 == k;
      }
    }
  }

  /** A map as an association list in any order, each key once. */
  ghost predicate Lists(pairs: seq<(nat, U64)>, m: map<nat, U64>) {
    && (forall i | 0 <= i < |pairs| :: pairs[i].0 in m && pairs[i].1 == m[pairs[i].0])
    && (forall key | key in m :: exists i :: 0 <= i < |pairs| && pairs[i] == (key, m[key]))
  }

  /** Keys ascend. */
  ghost predicate ByKey(pairs: seq<(nat, U64)>) { forall i, j | 0 <= i < j < |pairs| :: pairs[i].0 < pairs[j].0 }

  /** A map as a list by ascending key. */
  method ListMap(m: map<nat, U64>) returns (pairs: seq<(nat, U64)>)
    ensures Lists(pairs, m) && ByKey(pairs)
  {
    var keys := Sorted(m.Keys);
    pairs := [];
    for n := 0 to |keys|
      invariant |pairs| == n && forall i | 0 <= i < n :: pairs[i].0 == keys[i] && keys[i] in m && pairs[i].1 == m[keys[i]]
    {
      assert keys[n] in keys;
      pairs := pairs + [(keys[n], m[keys[n]])];
    }
    forall key | key in m
      ensures exists i :: 0 <= i < |pairs| && pairs[i] == (key, m[key])
    {
      assert key in keys;
      var i :| 0 <= i < |keys| && keys[i] == key;
      assert pairs[i] == (key, m[key]);
    }
  }

  /** A list by ascending key is known by its members. */
  lemma {:induction false} OneList(a: seq<(nat, U64)>, b: seq<(nat, U64)>)
    requires ByKey(a) && ByKey(b) && forall x :: x in a <==> x in b
    ensures a == b
  {
    assert b != [] ==> b[0] in b && b[0] in a;
    if a != [] {
      hide ByKey;
      var x := a[|a| - 1];
      assert x in a && x in b;
      var y := b[|b| - 1];
      assert y in b && y in a;
      LastIsGreatest(a, y);
      LastIsGreatest(b, x);
      var a', b' := a[..|a| - 1], b[..|b| - 1];
      AllButLast(a, x);
      AllButLast(b, y);
      forall z
        ensures z in a' <==> z in b'
      {
        AllButLast(a, z);
        AllButLast(b, z);
      }
      OneList(a', b');
      assert a == a' + [x] && b == b' + [y];
    }
  }

  lemma LastIsGreatest(a: seq<(nat, U64)>, z: (nat, U64))
    requires ByKey(a) && z in a
    ensures z.0 <= a[|a| - 1].0 && (z.0 == a[|a| - 1].0 ==> z == a[|a| - 1])
  {
    var i :| 0 <= i < |a| && a[i] == z;
  }

  lemma AllButLast(a: seq<(nat, U64)>, z: (nat, U64))
    requires ByKey(a) && a != []
    ensures ByKey(a[..|a| - 1])
    ensures z in a[..|a| - 1] <==> z in a && z != a[|a| - 1]
  {
    if z in a && z != a[|a| - 1] {
      var i :| 0 <= i < |a| && a[i] == z;
      assert a[..|a| - 1][i] == z;
    }
    if z in a[..|a| - 1] {
      var i :| 0 <= i < |a| - 1 && a[..|a| - 1][i] == z;
      assert a[i].0 < a[|a| - 1].0;
    }
  }

  /** Reading back a snapshot gives the floors it was taken from. */
  lemma SnapshotComesBack(pairs: seq<(nat, U64)>, m: map<nat, U64>, merged: map<nat, U64>)
    requires Lists(pairs, m) && IsMerged(pairs, merged)
    ensures merged == m
  {
    forall key
      ensures key in merged <==> key in m
      ensures key in m && key in merged ==> merged[key] == m[key]
    {
      if key in m {
        var i :| 0 <= i < |pairs| && pairs[i] == (key, m[key]);
      }
      if key in merged {
        var i :| 0 <= i < |pairs| && pairs[i] == (key, merged[key]);
      }
    }
  }

  function FloorAt(floors: map<nat, U64>, key: nat): U64 { if key in floors then floors[key] else 0 }

  function BaseAt(bases: seq<Option<U64>>, index: nat): Option<U64> { if index < |bases| then bases[index] else None }

  /** Extends a vector with an empty slot for `index`. */
  function Resized<T>(v: seq<T>, index: nat, empty: T): (r: seq<T>)
    ensures |r| > index && |r| >= |v|
    ensures forall i | 0 <= i < |r| :: r[i] == if i < |v| then v[i] else empty
  {
    if |v| <= index then v + seq(index + 1 - |v|, _ => empty) else v
  }

  /** Channel floors, one for each stream. */
  class ChannelCapacityFloors {
    var baseByStream: seq<Option<U64>>
    var capacityByStream: map<nat, U64>

    /** The capacity stream `s` is planned with, once its base is known. */
    function Planned(s: nat): Option<U64>
      reads this
    {
      match BaseAt(baseByStream, s)
      case None => None
      case Some(base) => Some(Max(base, FloorAt(capacityByStream, s)))
    }

    constructor WarmStarted(capacities: seq<(nat, U64)>)
      ensures baseByStream == [] && IsMerged(capacities, capacityByStream)
    {
      var merged := MergePairs(capacities);
      baseByStream, capacityByStream := [], merged;
    }

    /** Plans a stream: remembers its base, and refuses a base that changed. */
    method Channel(s: nat, base: U64) returns (capacity: Option<U64>)
      modifies this`baseByStream
      ensures capacity.Some? <==> old(BaseAt(baseByStream, s)) in {None, Some(base)}
      ensures capacity.Some? ==> capacity == Planned(s) && capacity.value == Max(base, FloorAt(capacityByStream, s))
      ensures capacity.Some? ==> BaseAt(baseByStream, s) == Some(base)
      ensures forall t | t != s :: BaseAt(baseByStream, t) == old(BaseAt(baseByStream, t))
      ensures forall t | t != s :: Planned(t) == old(Planned(t))
      ensures BaseAt(old(baseByStream), s).Some? ==> Planned(s) == old(Planned(s))
    {
      baseByStream := Resized(baseByStream, s, None);
      if baseByStream[s].Some? && baseByStream[s].value != base {
        return None;
      }
      baseByStream := baseByStream[s := Some(base)];
      return Some(Max(base, FloorAt(capacityByStream, s)));
    }

    /** The floors that the run converged on, by ascending stream. */
    method ConvergedCapacities() returns (pairs: seq<(nat, U64)>)
      ensures Lists(pairs, capacityByStream) && ByKey(pairs)
    {
      pairs := ListMap(capacityByStream);
    }

    /** After stream `s` overflowed at `capacity`: plans it with at least `grown`, and no other stream
        differently. A fault that does not match the plan changes nothing. */
    method Raise(s: nat, capacity: U64, grown: U64) returns (ok: bool)
      modifies this`capacityByStream
      ensures ok <==> old(Planned(s)) == Some(capacity)
      ensures ok ==> Planned(s).Some? && Planned(s).value == Max(capacity, grown)
      ensures !ok ==> capacityByStream == old(capacityByStream)
      ensures forall t | t != s :: Planned(t) == old(Planned(t))
    {
      var base := BaseAt(baseByStream, s);
      if base.None? || Max(base.value, FloorAt(capacityByStream, s)) != capacity {
        return false;
      }
      capacityByStream := capacityByStream[s := Max(FloorAt(capacityByStream, s), grown)];
      return true;
    }
  }

  /** TCP floors: receiver ranges for each class of flows with one base, ledgers for each flow. */
  class TcpCapacityFloors {
    var receiverBase: seq<Option<U64>>
    var ledgerBase: seq<Option<U64>>
    var receiverRanges: map<nat, U64>
    var ledgerSegments: seq<U64>

    function LedgerFloor(flow: nat): U64
      reads this
    {
      FloorIn(ledgerSegments, flow)
    }

    function PlannedReceiver(flow: nat): Option<U64>
      reads this
    {
      match BaseAt(receiverBase, flow)
      case None => None
      case Some(base) => Some(Max(base, FloorAt(receiverRanges, base)))
    }

    function PlannedLedger(flow: nat): Option<U64>
      reads this
    {
      match BaseAt(ledgerBase, flow)
      case None => None
      case Some(base) => Some(Max(base, LedgerFloor(flow)))
    }

    /** Starts from a snapshot; ledger floors of flows the image does not have are dropped. */
    constructor WarmStarted(ranges: seq<(nat, U64)>, segments: seq<(nat, U64)>, flows: nat)
      ensures receiverBase == [] && ledgerBase == [] && IsMerged(ranges, receiverRanges) && |ledgerSegments| <= flows
      ensures exists merged :: IsMerged(segments, merged)
      ensures forall merged | IsMerged(segments, merged) ::
                forall flow | 0 <= flow < flows :: LedgerFloor(flow) == FloorAt(merged, flow)
    {
      var merged := MergePairs(ranges);
      var floors := MergePairs(segments);
      var longest: nat := 0;
      for i := 0 to |segments|
        invariant forall k | 0 <= k < i :: segments[k].0 < longest
      {
        longest := Max(longest, segments[i].0 + 1);
      }
      var length := Min(longest, flows);
      receiverBase, ledgerBase, receiverRanges := [], [], merged;
      ledgerSegments := seq(length, flow requires 0 <= flow => FloorAt(floors, flow));
      new;
      forall other, flow | IsMerged(segments, other) && 0 <= flow < flows
        ensures LedgerFloor(flow) == FloorAt(other, flow)
      {
        OneMerge(segments, floors, other);
      }
    }

    method Receiver(flow: nat, base: U64) returns (capacity: Option<U64>)
      modifies this`receiverBase
      ensures capacity.Some? <==> old(BaseAt(receiverBase, flow)) in {None, Some(base)}
      ensures capacity.Some? ==> capacity == PlannedReceiver(flow) && BaseAt(receiverBase, flow) == Some(base)
      ensures |receiverBase| == Max(old(|receiverBase|), flow + 1)
      ensures BaseAt(old(receiverBase), flow).Some? ==> BaseAt(receiverBase, flow) == old(BaseAt(receiverBase, flow))
      ensures forall other | other != flow :: BaseAt(receiverBase, other) == old(BaseAt(receiverBase, other))
      ensures forall other | other != flow :: PlannedReceiver(other) == old(PlannedReceiver(other))
    {
      receiverBase := Resized(receiverBase, flow, None);
      if receiverBase[flow].Some? && receiverBase[flow].value != base {
        return None;
      }
      receiverBase := receiverBase[flow := Some(base)];
      return Some(Max(base, FloorAt(receiverRanges, base)));
    }

    method Ledger(flow: nat, base: U64) returns (capacity: Option<U64>)
      modifies this`ledgerBase
      ensures capacity.Some? <==> old(BaseAt(ledgerBase, flow)) in {None, Some(base)}
      ensures capacity.Some? ==> capacity == PlannedLedger(flow) && BaseAt(ledgerBase, flow) == Some(base)
      ensures |ledgerBase| == Max(old(|ledgerBase|), flow + 1)
      ensures BaseAt(old(ledgerBase), flow).Some? ==> BaseAt(ledgerBase, flow) == old(BaseAt(ledgerBase, flow))
      ensures forall other | other != flow :: BaseAt(ledgerBase, other) == old(BaseAt(ledgerBase, other))
      ensures forall other | other != flow :: PlannedLedger(other) == old(PlannedLedger(other))
    {
      ledgerBase := Resized(ledgerBase, flow, None);
      if ledgerBase[flow].Some? && ledgerBase[flow].value != base {
        return None;
      }
      ledgerBase := ledgerBase[flow := Some(base)];
      return Some(Max(base, LedgerFloor(flow)));
    }

    /** A receiver fault grows the flow's whole class, and no other class. */
    method RaiseReceiver(flow: nat, capacity: U64, grown: U64) returns (ok: bool)
      modifies this`receiverRanges
      ensures ok <==> old(PlannedReceiver(flow)) == Some(capacity)
      ensures !ok ==> receiverRanges == old(receiverRanges)
      ensures ok ==> forall other | BaseAt(receiverBase, other) == BaseAt(receiverBase, flow) ::
                       PlannedReceiver(other) == Some(Max(capacity, grown))
      ensures forall other | BaseAt(receiverBase, other) != BaseAt(receiverBase, flow) ::
                PlannedReceiver(other) == old(PlannedReceiver(other))
    {
      var base := BaseAt(receiverBase, flow);
      if base.None? || Max(base.value, FloorAt(receiverRanges, base.value)) != capacity {
        return false;
      }
      receiverRanges := receiverRanges[base.value := Max(FloorAt(receiverRanges, base.value), grown)];
      return true;
    }

    method RaiseLedgerFloor(flow: nat, grown: U64)
      modifies this`ledgerSegments
      ensures LedgerFloor(flow) == Max(old(LedgerFloor(flow)), grown)
      ensures |ledgerSegments| == Max(old(|ledgerSegments|), flow + 1)
      ensures forall other | other != flow :: LedgerFloor(other) == old(LedgerFloor(other))
    {
      ledgerSegments := Resized(ledgerSegments, flow, 0);
      ledgerSegments := ledgerSegments[flow := Max(ledgerSegments[flow], grown)];
    }

    /** A ledger fault grows only its own flow. */
    method RaiseLedger(flow: nat, capacity: U64, grown: U64) returns (ok: bool)
      modifies this`ledgerSegments
      ensures ok <==> old(PlannedLedger(flow)) == Some(capacity)
      ensures ok ==> PlannedLedger(flow) == Some(Max(capacity, grown))
      ensures !ok ==> ledgerSegments == old(ledgerSegments)
      ensures |ledgerSegments| <= Max(old(|ledgerSegments|), |ledgerBase|)
      ensures forall other | other != flow :: PlannedLedger(other) == old(PlannedLedger(other))
    {
      var base := BaseAt(ledgerBase, flow);
      if base.None? || Max(base.value, LedgerFloor(flow)) != capacity {
        return false;
      }
      RaiseLedgerFloor(flow, grown);
      return true;
    }

    /** The receiver classes that the run converged on, by ascending base. */
    method ConvergedReceivers() returns (pairs: seq<(nat, U64)>)
      ensures Lists(pairs, receiverRanges) && ByKey(pairs)
    {
      pairs := ListMap(receiverRanges);
    }

    /** The ledger floors that bind, by ascending flow. */
    method ConvergedLedger() returns (pairs: seq<(nat, U64)>)
      ensures ListsBinding(pairs, ledgerSegments) && ByKey(pairs)
    {
      pairs := [];
      for flow: nat := 0 to |ledgerSegments|
        invariant forall i | 0 <= i < |pairs| ::
                    pairs[i].0 < flow && pairs[i].1 == ledgerSegments[pairs[i].0] != 0
        invariant forall f | 0 <= f < flow && ledgerSegments[f] != 0 :: (f, ledgerSegments[f]) in pairs
        invariant forall i, j | 0 <= i < j < |pairs| :: pairs[i].0 < pairs[j].0
      {
        if ledgerSegments[flow] != 0 {
          pairs := pairs + [(flow, ledgerSegments[flow])];
        }
      }
    }

    /** Sizes every planned flow from an occupancy vector: each floor becomes at least what its high
        water asks for, none is lowered, and the count is that of the floors that moved. */
    method RaiseFromOccupancy(highWater: seq<U64>) returns (raised: nat)
      modifies this`ledgerSegments
      ensures forall flow: nat :: LedgerFloor(flow) ==
                if BaseAt(ledgerBase, flow).Some? then Max(old(LedgerFloor(flow)), Wanted(highWater, flow))
                else old(LedgerFloor(flow))
      ensures exists moved: set<nat> :: raised == |moved| && IsMoved(moved, old(ledgerSegments), ledgerSegments)
      ensures |ledgerSegments| <= Max(old(|ledgerSegments|), |ledgerBase|)
    {
      raised := 0;
      ghost var moved: set<nat> := {};
      for flow: nat := 0 to |ledgerBase|
        invariant raised == |moved| && IsMoved(moved, old(ledgerSegments), ledgerSegments)
        invariant forall f | f in moved :: f < flow
        invariant |ledgerSegments| <= Max(old(|ledgerSegments|), |ledgerBase|)
        invariant forall f: nat :: LedgerFloor(f) ==
                    if f < flow && BaseAt(ledgerBase, f).Some? then Max(old(LedgerFloor(f)), Wanted(highWater, f))
                    else old(LedgerFloor(f))
      {
        if ledgerBase[flow].None? {
          continue;
        }
        var target := Wanted(highWater, flow);
        if target > LedgerFloor(flow) {
          ghost var before := ledgerSegments;
          label raising:
          RaiseLedgerFloor(flow, target);
          assert forall f: nat {:trigger FloorIn(ledgerSegments, f)} | f != flow :: LedgerFloor(f) == old@raising(LedgerFloor(f));
          OneMoreMoved(moved, old(ledgerSegments), before, ledgerSegments, flow);
          raised, moved := raised + 1, moved + {flow};
        }
      }
    }
  }

  function FloorIn(v: seq<U64>, flow: nat): U64 { if flow < |v| then v[flow] else 0 }

  /** The flows whose floor differs. */
  ghost predicate IsMoved(moved: set<nat>, before: seq<U64>, after: seq<U64>) {
    forall f: nat :: f in moved <==> FloorIn(before, f) != FloorIn(after, f)
  }

  lemma OneMoreMoved(moved: set<nat>, first: seq<U64>, before: seq<U64>, after: seq<U64>, flow: nat)
    requires IsMoved(moved, first, before) && flow !in moved && FloorIn(after, flow) != FloorIn(before, flow)
    requires forall f: nat | f != flow :: FloorIn(after, f) == FloorIn(before, f)
    ensures IsMoved(moved + {flow}, first, after)
  {
    hide FloorIn;
  }

  /** The floors of `v` that are not zero, as pairs. */
  ghost predicate ListsBinding(pairs: seq<(nat, U64)>, v: seq<U64>) {
    && (forall i | 0 <= i < |pairs| :: pairs[i].0 < |v| && pairs[i].1 == v[pairs[i].0] != 0)
    && (forall f | 0 <= f < |v| && v[f] != 0 :: (f, v[f]) in pairs)
  }

  /** A ledger snapshot leaves zeros out and still brings every floor back. */
  lemma LedgerComesBack(pairs: seq<(nat, U64)>, v: seq<U64>, merged: map<nat, U64>, flow: nat)
    requires ListsBinding(pairs, v) && IsMerged(pairs, merged)
    ensures FloorAt(merged, flow) == if flow < |v| then v[flow] else 0
  {
    if flow in merged {
      var i :| 0 <= i < |pairs| && pairs[i] == (flow, merged[flow]);
    }
  }

  /** The ledger capacity that the occupancy vector asks for. */
  function Wanted(highWater: seq<U64>, flow: nat): U64 {
    FromHighWater(if flow < |highWater| then highWater[flow] else 0)
  }

  lemma OneMerge(pairs: seq<(nat, U64)>, a: map<nat, U64>, b: map<nat, U64>)
    requires IsMerged(pairs, a) && IsMerged(pairs, b)
    ensures a == b
  {
    forall key
      ensures key in a <==> key in b
      ensures key in a && key in b ==> a[key] == b[key]
    {
      if key in a && key in b {
        var i :| 0 <= i < |pairs| && pairs[i] == (key, a[key]);
        var j :| 0 <= j < |pairs| && pairs[j] == (key, b[key]);
      }
    }
  }
}
