/** How a capacity grows after a device arena overflowed, and that each retry makes progress. */
module CapacityLaws {
  import opened Basics
  import opened Events
  import opened Words

  /** The ceiling of a capacity. */
  const CEILING: nat := U64_MAX

  const TCP_RECEIVER_RETRY_SLACK: nat := 64
  const TCP_LEDGER_RETRY_SLACK: nat := 256
  const TCP_LEDGER_OCCUPANCY_SLACK_FACTOR: nat := 8
  const TCP_LEDGER_OCCUPANCY_SLACK_RECORDS: nat := 8

  function Capped(n: nat): U64 { Min(n, CEILING) }

  function GrownCapacity(capacity: U64, demand: U64): U64 {
    var basis := Max(demand, Capped(capacity + 1));
    Max(Capped(2 * basis), basis)
  }

  function GrownWithSlack(capacity: U64, demand: U64, slack: nat): U64 {
    Capped(Max(demand, Capped(capacity + 1)) + slack)
  }

  function FromHighWater(highWater: U64): U64 {
    Capped(Capped(highWater * TCP_LEDGER_OCCUPANCY_SLACK_FACTOR) + TCP_LEDGER_OCCUPANCY_SLACK_RECORDS)
  }

  function GrownLedger(capacity: U64, demand: U64, highWater: Option<U64>): U64 {
    match highWater
    case Some(seen) => Max(Max(FromHighWater(seen), demand), Capped(capacity + 1))
    case None => GrownWithSlack(capacity, demand, TCP_LEDGER_RETRY_SLACK)
  }

  function GrownReceiver(capacity: U64, demand: U64): U64 { GrownWithSlack(capacity, demand, TCP_RECEIVER_RETRY_SLACK) }

  /** Every growth law covers the demand, and moves exactly when the ceiling is not reached. */
  lemma GrowthMoves(capacity: U64, demand: U64, slack: nat, highWater: Option<U64>)
    ensures demand <= GrownCapacity(capacity, demand) && (GrownCapacity(capacity, demand) > capacity <==> capacity < CEILING)
    ensures demand <= GrownWithSlack(capacity, demand, slack)
    ensures GrownWithSlack(capacity, demand, slack) > capacity <==> capacity < CEILING
    ensures demand <= GrownLedger(capacity, demand, highWater)
    ensures GrownLedger(capacity, demand, highWater) > capacity <==> capacity < CEILING
  {
  }

  /** The settings of one plane-wide arena: an explicit override, an upper cap and a retry floor. */
  datatype Lane = Lane(override: Option<U64>, cap: Option<U64>, floor: U64)

  function BoundDerived(derived: U64, cap: Option<U64>, floor: U64, resident: U64): U64 {
    Max(Max(if cap.Some? then Min(derived, cap.value) else derived, resident), floor)
  }

  /** The capacity an entity is planned with. */
  function Planned(lane: Lane, derived: U64, resident: U64): U64 {
    match lane.override
    case Some(limit) => Max(limit, lane.floor)
    case None => BoundDerived(derived, lane.cap, lane.floor, resident)
  }

  /** What a fault at `capacity` does to the settings. */
  function Raise(lane: Lane, capacity: U64, grown: U64): Lane {
    if lane.override == Some(capacity) then lane.(override := Some(Max(capacity, grown)))
    else
      lane.(cap := if lane.cap == Some(capacity) then Some(Max(capacity, grown)) else lane.cap,
            floor := Max(lane.floor, grown))
  }

  /** A retry plans the faulting entity with at least what it grew to, lowers nobody, and never
      cuts below what an entity already holds. */
  lemma RaiseMakesProgress(lane: Lane, derived: U64, resident: U64, grown: U64)
    requires grown > Planned(lane, derived, resident)
    ensures var after := Raise(lane, Planned(lane, derived, resident), grown);
            && Planned(after, derived, resident) >= grown
            && (forall derived', resident': U64 :: Planned(after, derived', resident') >= Planned(lane, derived', resident'))
            && (after.override.None? ==> Planned(after, derived, resident) >= resident)
  {
  }

  /** What the settings are after faults with these demands, each on an arena of this size. */
  function AfterFaults(lane: Lane, derived: U64, resident: U64, demands: seq<U64>): Lane {
    if demands == [] then lane
    else
      var before := AfterFaults(lane, derived, resident, demands[..|demands| - 1]);
      var capacity := Planned(before, derived, resident);
      Raise(before, capacity, GrownCapacity(capacity, demands[|demands| - 1]))
  }

  /** What `k` doublings make of a capacity. */
  function Doubled(capacity: nat, k: nat): nat {
    if k == 0 then capacity + 2 else 2 * Doubled(capacity, k - 1)
  }

  lemma {:induction false} DoubledIsPower(capacity: nat, k: nat)
    ensures Doubled(capacity, k) == Pow2(k) * (capacity + 2)
  {
    if k > 0 {
      DoubledIsPower(capacity, k - 1);
      Doubles(Pow2(k - 1), capacity + 2);
    }
  }

  lemma Doubles(p: nat, n: nat)
    ensures 2 * p * n == 2 * (p * n)
  {
  }

  lemma OneDoubling(target: nat, capacity: U64, demand: U64, next: U64)
    requires capacity + 2 >= Min(target, CEILING + 2) && next >= GrownCapacity(capacity, demand)
    ensures next + 2 >= Min(2 * target, CEILING + 2)
  {
  }

  /** After `k` faults a doubling entity holds at least 2^k * (c + 2) - 2, or the ceiling. */
  lemma {:induction false} DoublingIsGeometric(lane: Lane, derived: U64, resident: U64, demands: seq<U64>)
    ensures Planned(AfterFaults(lane, derived, resident, demands), derived, resident) + 2 >=
            Min(Pow2(|demands|) * (Planned(lane, derived, resident) + 2), CEILING + 2)
  {
    hide Raise, Planned, GrownCapacity;
    var start := Planned(lane, derived, resident);
    if demands == [] {
      assert Pow2(0) == 1;
    } else {
      var init, demand := demands[..|demands| - 1], demands[|demands| - 1];
      DoublingIsGeometric(lane, derived, resident, init);
      var before := AfterFaults(lane, derived, resident, init);
      var capacity := Planned(before, derived, resident);
      GrowthMoves(capacity, demand, 0, None);
      RaiseReaches(before, derived, resident, GrownCapacity(capacity, demand));
      OneMoreDoubling(start, |init|, capacity, demand, Planned(AfterFaults(lane, derived, resident, demands), derived, resident));
    }
  }

  /** One more fault doubles the bound. */
  lemma OneMoreDoubling(start: nat, k: nat, capacity: U64, demand: U64, next: U64)
    requires capacity + 2 >= Min(Pow2(k) * (start + 2), CEILING + 2) && next >= GrownCapacity(capacity, demand)
    ensures next + 2 >= Min(Pow2(k + 1) * (start + 2), CEILING + 2)
  {
    hide GrownCapacity;
    DoubledIsPower(start, k);
    DoubledIsPower(start, k + 1);
    OneDoubling(Doubled(start, k), capacity, demand, next);
  }

  lemma RaiseReaches(lane: Lane, derived: U64, resident: U64, grown: U64)
    ensures Planned(Raise(lane, Planned(lane, derived, resident), grown), derived, resident) >= grown
  {
  }

  /** A snapshot's plane-wide floor: the capacity the last attempt used. */
  function Converged(lane: Lane): U64 {
    Max(lane.floor, if lane.override.Some? then lane.override.value else 0)
  }

  /** Planning again from the settings a caller started with, but with the converged floor merged in,
      gives every entity the capacity of the last attempt, provided the retries only raised the
      override and the floor, and a cap never above what the floor gives. */
  lemma ReplayPlansAtOnce(first: Lane, last: Lane, derived: U64, resident: U64)
    requires first.override.Some? == last.override.Some?
    requires first.override.Some? ==> first.override.value <= last.override.value
    requires first.floor <= last.floor
    requires first.override.None? ==> RaisedCap(first, last)
    ensures Planned(first.(floor := Max(first.floor, Converged(last))), derived, resident) == Planned(last, derived, resident)
    ensures Converged(first.(floor := Max(first.floor, Converged(last)))) == Converged(last)
  {
  }

  /** The cap is as it was, or was raised no further than the floor. */
  predicate RaisedCap(first: Lane, last: Lane) {
    || last.cap == first.cap
    || (first.cap.Some? && last.cap.Some? && first.cap.value <= last.cap.value <= last.floor)
  }

  /** The settings that retries lead to. */
  ghost predicate Descends(first: Lane, last: Lane) {
    && first.override.Some? == last.override.Some?
    && (first.override.Some? ==> first.override.value <= last.override.value)
    && first.floor <= last.floor
    && RaisedCap(first, last)
  }

  lemma {:induction false} RetriesDescend(lane: Lane, derived: seq<U64>, resident: seq<U64>, demands: seq<U64>)
    requires |derived| == |resident| == |demands|
    ensures Descends(lane, AfterMixed(lane, derived, resident, demands))
  {
    if demands != [] {
      RetriesDescend(lane, derived[..|derived| - 1], resident[..|resident| - 1], demands[..|demands| - 1]);
    }
  }

  /** The settings after faults of different entities of one arena. */
  function AfterMixed(lane: Lane, derived: seq<U64>, resident: seq<U64>, demands: seq<U64>): Lane
    requires |derived| == |resident| == |demands|
    decreases |demands|
  {
    if demands == [] then lane
    else
      var n := |demands| - 1;
      var before := AfterMixed(lane, derived[..n], resident[..n], demands[..n]);
      var capacity := Planned(before, derived[n], resident[n]);
      Raise(before, capacity, GrownCapacity(capacity, demands[n]))
  }

  /** A warm start from any chain of retries plans every entity of the arena at its final capacity. */
  lemma WarmStartConverges(lane: Lane, derived: seq<U64>, resident: seq<U64>, demands: seq<U64>, d: U64, r: U64)
    requires |derived| == |resident| == |demands|
    ensures var last := AfterMixed(lane, derived, resident, demands);
            var warm := lane.(floor := Max(lane.floor, Converged(last)));
            Planned(warm, d, r) == Planned(last, d, r) && Converged(warm) == Converged(last)
  {
    RetriesDescend(lane, derived, resident, demands);
    ReplayPlansAtOnce(lane, AfterMixed(lane, derived, resident, demands), d, r);
  }

  /** Without an override, the planned capacity is the least that holds what is resident, reaches the floor and
      reaches the smaller of what was derived and the cap; so it exceeds the cap only if one of the first two
      does. With an override, what was derived does not matter. */
  lemma PlannedIsLeast(lane: Lane, derived: U64, resident: U64, other: U64)
    ensures lane.override.None? ==>
              var wanted := if lane.cap.Some? && lane.cap.value < derived then lane.cap.value else derived;
              && resident <= Planned(lane, derived, resident) && lane.floor <= Planned(lane, derived, resident)
              && wanted <= Planned(lane, derived, resident)
              && (resident <= other && lane.floor <= other && wanted <= other ==> Planned(lane, derived, resident) <= other)
    ensures lane.override.None? && lane.cap.Some? && lane.cap.value < Planned(lane, derived, resident) ==>
              Planned(lane, derived, resident) == resident || Planned(lane, derived, resident) == lane.floor
    ensures lane.override.Some? ==>
              && lane.override.value <= Planned(lane, derived, resident) && lane.floor <= Planned(lane, derived, resident)
              && (lane.override.value <= other && lane.floor <= other ==> Planned(lane, derived, resident) <= other)
  {
  }

  /** A fault at the override raises the override and nothing else. Any other raises the floor, and the cap if the
      fault was at the cap; what is raised never falls. */
  lemma RaiseMovesWhatBinds(lane: Lane, capacity: U64, grown: U64)
    requires capacity <= grown
    ensures lane.override == Some(capacity) ==> Raise(lane, capacity, grown) == Lane(Some(grown), lane.cap, lane.floor)
    ensures lane.override != Some(capacity) ==>
              var after := Raise(lane, capacity, grown);
              && after.override == lane.override
              && lane.floor <= after.floor && grown <= after.floor && (after.floor == lane.floor || after.floor == grown)
              && after.cap == if lane.cap == Some(capacity) then Some(grown) else lane.cap
  {
  }

  /** How far each law grows, short of the ceiling: twice what is needed; what is needed and the slack; eight
      times the high water and eight, if that covers the demand. */
  lemma GrowthIsExact(capacity: U64, demand: U64, slack: nat, seen: U64)
    requires 2 * Max(demand, capacity + 1) + slack <= CEILING && 8 * seen + 8 <= CEILING
    ensures demand <= capacity ==> GrownCapacity(capacity, demand) == 2 * capacity + 2
    ensures capacity < demand ==> GrownCapacity(capacity, demand) == 2 * demand
    ensures demand <= capacity ==> GrownWithSlack(capacity, demand, slack) == capacity + 1 + slack
    ensures capacity < demand ==> GrownWithSlack(capacity, demand, slack) == demand + slack
    ensures FromHighWater(seen) == 8 * seen + 8
    ensures demand <= 8 * seen + 8 && capacity < 8 * seen + 8 ==> GrownLedger(capacity, demand, Some(seen)) == 8 * seen + 8
    ensures 8 * seen + 8 <= demand && capacity < demand ==> GrownLedger(capacity, demand, Some(seen)) == demand
    ensures slack == 256 ==> GrownLedger(capacity, demand, None) == GrownWithSlack(capacity, demand, slack)
    ensures slack == 64 ==> GrownReceiver(capacity, demand) == GrownWithSlack(capacity, demand, slack)
  {
  }
}
