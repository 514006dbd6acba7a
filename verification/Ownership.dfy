/** Dealing processes out to workers and finding them again. */
module Ownership {
  import opened Basics
  import opened Events
  import opened RemoteMerge
  import opened Placement

  const U128_MAX: nat := 0xffff_ffff_ffff_ffff_ffff_ffff_ffff_ffff

  /** Position `(w, s)` of the dealt lists. */
  predicate IsPlace(owned: seq<seq<nat>>, w: int, s: int) { 0 <= w < |owned| && 0 <= s < |owned[w]| }

  ghost predicate Holds(owned: seq<seq<nat>>, lp: nat) {
    exists w, s :: IsPlace(owned, w, s) && owned[w][s] == lp
  }

  /** The lists hold exactly the processes in `of`, each once. */
  ghost predicate Deals(owned: seq<seq<nat>>, of: set<nat>) {
    && (forall lp :: lp in of <==> Holds(owned, lp))
    && (forall w, s, w', s' {:trigger IsPlace(owned, w, s), IsPlace(owned, w', s')} |
          IsPlace(owned, w, s) && IsPlace(owned, w', s') && owned[w][s] == owned[w'][s'] :: w == w' && s == s')
  }

  function Elements(order: seq<nat>): set<nat> { set lp | lp in order }

  function Numbers(count: nat): seq<nat> { seq(count, i => i) }

  ghost predicate Distinct(order: seq<nat>) { forall i, j | 0 <= i < j < |order| :: order[i] != order[j] }

  lemma PushHolds(owned: seq<seq<nat>>, w: nat, lp: nat, x: nat)
    requires w < |owned|
    ensures Holds(owned[w := owned[w] + [lp]], x) <==> Holds(owned, x) || x == lp
  {
    var after := owned[w := owned[w] + [lp]];
    assert IsPlace(after, w, |owned[w]|) && after[w][|owned[w]|] == lp;
    if v, s :| IsPlace(owned, v, s) && owned[v][s] == x {
      assert IsPlace(after, v, s) && after[v][s] == x;
    }
    if v, s :| IsPlace(after, v, s) && after[v][s] == x && x != lp {
      assert IsPlace(owned, v, s) && owned[v][s] == x;
    }
  }

  /** Pushing one more process onto a list. */
  lemma PushDeals(owned: seq<seq<nat>>, of: set<nat>, w: nat, lp: nat)
    requires Deals(owned, of) && w < |owned| && lp !in of
    ensures Deals(owned[w := owned[w] + [lp]], of + {lp})
  {
    var after := owned[w := owned[w] + [lp]];
    forall x
      ensures x in of + {lp} <==> Holds(after, x)
    {
      PushHolds(owned, w, lp, x);
    }
    forall v, s, v', s' | IsPlace(after, v, s) && IsPlace(after, v', s') && after[v][s] == after[v'][s']
      ensures v == v' && s == s'
    {
      var new1, new2 := v == w && s == |owned[w]|, v' == w && s' == |owned[w]|;
      assert !new1 ==> IsPlace(owned, v, s) && owned[v][s] == after[v][s] && Holds(owned, after[v][s]);
      assert !new2 ==> IsPlace(owned, v', s') && owned[v'][s'] == after[v'][s'] && Holds(owned, after[v'][s']);
    }
  }

  lemma NothingDealt(workers: nat)
    ensures Deals(seq(workers, _ => []), {})
  {
  }

  lemma PrefixStep(order: seq<nat>, i: nat)
    requires i < |order| && Distinct(order)
    ensures order[i] !in Elements(order[..i]) && Elements(order[..i + 1]) == Elements(order[..i]) + {order[i]}
  {
    assert order[..i + 1] == order[..i] + [order[i]];
  }

  /** Deals process numbers round robin. */
  method DealByNumber(count: nat, workers: nat) returns (owned: seq<seq<nat>>)
    requires workers > 0
    ensures |owned| == workers && Deals(owned, Elements(Numbers(count)))
    ensures forall w, s | IsPlace(owned, w, s) :: owned[w][s] % workers == w
  {
    hide Deals, Elements;
    owned := seq(workers, _ => []);
    ghost var order := Numbers(count);
    NothingDealt(workers);
    FirstElements(order);
    for lp: nat := 0 to count
      invariant |owned| == workers && Deals(owned, Elements(order[..lp]))
      invariant forall w, s | IsPlace(owned, w, s) :: owned[w][s] % workers == w
    {
      var w := lp % workers;
      PrefixStep(order, lp);
      PushDeals(owned, Elements(order[..lp]), w, lp);
      ghost var before := owned;
      owned := owned[w := owned[w] + [lp]];
      forall v, s | IsPlace(owned, v, s)
        ensures owned[v][s] % workers == v
      {
        assert (v == w && s == |before[w]|) || IsPlace(before, v, s);
      }
    }
    assert order[..count] == order;
  }

  lemma FirstElements(order: seq<nat>)
    ensures Elements(order[..0]) == {}
  {
  }

  /** The worker with the least load, then the fewest processes, then the lowest number. */
  method LeastLoaded(load: seq<nat>, owned: seq<seq<nat>>) returns (least: nat)
    requires |load| == |owned| > 0
    ensures least < |load|
    ensures forall w | 0 <= w < |load| && w != least ::
              || load[least] < load[w]
              || (load[least] == load[w] && |owned[least]| < |owned[w]|)
              || (load[least] == load[w] && |owned[least]| == |owned[w]| && least < w)
  {
    least := 0;
    for w := 1 to |load|
      invariant least < w
      invariant forall v | 0 <= v < w && v != least ::
                  || load[least] < load[v]
                  || (load[least] == load[v] && |owned[least]| < |owned[v]|)
                  || (load[least] == load[v] && |owned[least]| == |owned[v]| && least < v)
    {
      if load[w] < load[least] || (load[w] == load[least] && |owned[w]| < |owned[least]|) {
        least := w;
      }
    }
  }

  function SaturatingAdd(a: nat, b: nat): nat { if a + b > U128_MAX then U128_MAX else a + b }

  /** What the placement of all items keeps: near the average, and within Graham's factor of any rival. */
  ghost predicate Balanced(loads: seq<nat>, at: seq<nat>, workers: nat)
    requires |at| <= |loads| && workers > 0
  {
    && (forall heaviest: nat | (forall i | 0 <= i < |loads| :: loads[i] <= heaviest) ::
          NearAverage(loads, at, workers, heaviest))
    && (Descending(loads) ==> forall rival, best, w: nat | Rival(loads, rival, workers, best) && w < workers ::
          WithinGraham(LoadOf(loads, at, w), workers, best))
  }

  lemma BalancedAtFirst(loads: seq<nat>, workers: nat)
    requires workers > 0
    ensures Balanced(loads, [], workers)
  {
    forall heaviest: nat
      ensures NearAverage(loads, [], workers, heaviest)
    {
      assert (workers - 1) * heaviest >= 0;
    }
    forall best: nat
      ensures WithinGraham(0, workers, best)
    {
      assert (4 * workers - 1) * best >= 0;
    }
  }

  lemma StaysBalanced(loads: seq<nat>, at: seq<nat>, workers: nat, chosen: nat)
    requires |at| < |loads| && workers > 0 && chosen < workers && Assigns(at, workers) && Balanced(loads, at, workers)
    requires forall w: nat | w < workers :: LoadOf(loads, at, chosen) <= LoadOf(loads, at, w)
    ensures Balanced(loads, at + [chosen], workers)
  {
    hide LoadOf, NearAverage, WithinGraham, Descending, Rival;
    forall heaviest: nat | forall i | 0 <= i < |loads| :: loads[i] <= heaviest
      ensures NearAverage(loads, at + [chosen], workers, heaviest)
    {
      StaysNearAverage(loads, at, workers, heaviest, chosen);
    }
    if Descending(loads) {
      forall rival, best, w: nat | Rival(loads, rival, workers, best) && w < workers
        ensures WithinGraham(LoadOf(loads, at + [chosen], w), workers, best)
      {
        LoadStep(loads, at, chosen, w);
        StepWithinGraham(loads, at, workers, rival, best, chosen);
      }
    }
  }

  /** The worker loads, as long as nothing saturates. */
  ghost predicate Tallies(loads: seq<nat>, at: seq<nat>, tally: seq<nat>)
    requires |at| <= |loads|
  {
    forall w | 0 <= w < |tally| :: tally[w] == LoadOf(loads, at, w)
  }

  lemma TallyStep(loads: seq<nat>, at: seq<nat>, tally: seq<nat>, chosen: nat)
    requires |at| < |loads| && chosen < |tally| && Assigns(at, |tally|) && Tallies(loads, at, tally)
    requires Sum(loads) <= U128_MAX
    ensures Tallies(loads, at + [chosen], tally[chosen := SaturatingAdd(tally[chosen], loads[|at|])])
  {
    hide LoadOf, Sum;
    LoadBelowSum(loads, at, chosen);
    LoadStep(loads, at, chosen, chosen);
    SumGrows(loads, |at| + 1);
    forall w | 0 <= w < |tally|
      ensures tally[chosen := SaturatingAdd(tally[chosen], loads[|at|])][w] == LoadOf(loads, at + [chosen], w)
    {
      LoadStep(loads, at, chosen, w);
    }
  }

  lemma {:induction false} LoadBelowSum(loads: seq<nat>, at: seq<nat>, w: nat)
    requires |at| <= |loads|
    ensures LoadOf(loads, at, w) <= Sum(loads[..|at|])
  {
    if at != [] {
      LoadBelowSum(loads, at[..|at| - 1], w);
      assert loads[..|at|][..|at| - 1] == loads[..|at| - 1];
    }
  }

  /** Deals processes in the order of their loads, each to a least loaded worker. Process `order[i]`
      has load `loads[i]`. */
  method DealByLoad(order: seq<nat>, loads: seq<nat>, workers: nat) returns (owned: seq<seq<nat>>, at: seq<nat>)
    requires |order| == |loads| && workers > 0 && Distinct(order)
    ensures |owned| == workers && Deals(owned, Elements(order))
    ensures |at| == |order| && Assigns(at, workers)
    ensures forall i | 0 <= i < |order| :: order[i] in owned[at[i]]
    ensures Sum(loads) <= U128_MAX ==> Balanced(loads, at, workers)
  {
    hide Deals, Elements, Balanced, Tallies, Sum, LoadOf;
    owned := seq(workers, _ => []);
    at := [];
    var tally: seq<nat> := seq(workers, _ => 0);
    NothingDealt(workers);
    FirstElements(order);
    BalancedAtFirst(loads, workers);
    NoTally(loads, tally);
    for i := 0 to |order|
      invariant |owned| == workers == |tally| && |at| == i && Assigns(at, workers)
      invariant Deals(owned, Elements(order[..i]))
      invariant forall k | 0 <= k < i :: order[k] in owned[at[k]]
      invariant Sum(loads) <= U128_MAX ==> Tallies(loads, at, tally) && Balanced(loads, at, workers)
    {
      var chosen := LeastLoaded(tally, owned);
      PrefixStep(order, i);
      PushDeals(owned, Elements(order[..i]), chosen, order[i]);
      if Sum(loads) <= U128_MAX {
        TallyIsLeast(loads, at, tally, chosen);
        StaysBalanced(loads, at, workers, chosen);
        TallyStep(loads, at, tally, chosen);
      }
      tally := tally[chosen := SaturatingAdd(tally[chosen], loads[i])];
      owned := owned[chosen := owned[chosen] + [order[i]]];
      at := at + [chosen];
    }
    assert order[..|order|] == order;
  }

  lemma NoTally(loads: seq<nat>, tally: seq<nat>)
    requires forall w | 0 <= w < |tally| :: tally[w] == 0
    ensures Tallies(loads, [], tally)
  {
  }

  lemma TallyIsLeast(loads: seq<nat>, at: seq<nat>, tally: seq<nat>, chosen: nat)
    requires |at| <= |loads| && Tallies(loads, at, tally) && chosen < |tally|
    requires forall w | 0 <= w < |tally| :: tally[chosen] <= tally[w]
    ensures forall w: nat | w < |tally| :: LoadOf(loads, at, chosen) <= LoadOf(loads, at, w)
  {
    hide LoadOf;
  }

  /** The lists hold every process below `count`, and nothing else. */
  ghost predicate Covers(owned: seq<seq<nat>>, count: nat) {
    && (forall w, s | IsPlace(owned, w, s) :: owned[w][s] < count)
    && (forall lp | 0 <= lp < count :: Holds(owned, lp))
  }

  /** Every home recorded so far is where the lists have the process. */
  ghost predicate Recorded(owned: seq<seq<nat>>, homes: seq<Option<RemoteMerge.Home>>) {
    forall lp | 0 <= lp < |homes| && homes[lp].Some? ::
      var home := homes[lp].value;
      IsPlace(owned, home.worker, home.slot) && owned[home.worker][home.slot] == lp
  }

  /** Every place before place `(w, s)` has been recorded. */
  ghost predicate RecordedUpTo(owned: seq<seq<nat>>, homes: seq<Option<RemoteMerge.Home>>, w: int, s: int) {
    forall v, t | IsPlace(owned, v, t) && (v < w || (v == w && t < s)) ::
      owned[v][t] < |homes| && homes[owned[v][t]].Some?
  }

  /** Records the worker and slot of every process, and checks that none is missing. */
  method BuildPlacement(owned: seq<seq<nat>>, count: nat) returns (placement: Option<RemoteMerge.Placement>)
    ensures placement.Some? <==> Covers(owned, count)
    ensures placement.Some? ==>
              && |placement.value| == count
              && forall lp | 0 <= lp < count ::
                   var home := placement.value[lp];
                   IsPlace(owned, home.worker, home.slot) && owned[home.worker][home.slot] == lp
  {
    var homes: seq<Option<RemoteMerge.Home>> := seq(count, _ => None);
    for w := 0 to |owned|
      invariant |homes| == count && Recorded(owned, homes) && RecordedUpTo(owned, homes, w, 0)
    {
      for s := 0 to |owned[w]|
        invariant |homes| == count && Recorded(owned, homes) && RecordedUpTo(owned, homes, w, s)
      {
        var lp := owned[w][s];
        assert IsPlace(owned, w, s);
        if lp >= count {
          return None;
        }
        homes := homes[lp := Some(RemoteMerge.Home(w, s))];
      }
    }
    var found: RemoteMerge.Placement := [];
    for lp := 0 to count
      invariant |found| == lp
      invariant forall k | 0 <= k < lp :: homes[k] == Some(found[k])
    {
      if homes[lp].None? {
        NotHeld(owned, homes, lp);
        return None;
      }
      found := found + [homes[lp].value];
    }
    IsCovered(owned, homes, count);
    return Some(found);
  }

  lemma NotHeld(owned: seq<seq<nat>>, homes: seq<Option<RemoteMerge.Home>>, lp: nat)
    requires RecordedUpTo(owned, homes, |owned|, 0) && lp < |homes| && homes[lp].None?
    ensures !Holds(owned, lp)
  {
  }

  lemma IsCovered(owned: seq<seq<nat>>, homes: seq<Option<RemoteMerge.Home>>, count: nat)
    requires RecordedUpTo(owned, homes, |owned|, 0) && Recorded(owned, homes) && |homes| == count
    requires forall lp | 0 <= lp < count :: homes[lp].Some?
    ensures Covers(owned, count)
  {
    forall lp | 0 <= lp < count
      ensures Holds(owned, lp)
    {
      var home := homes[lp].value;
      assert IsPlace(owned, home.worker, home.slot) && owned[home.worker][home.slot] == lp;
    }
  }

  /** Finding a process and looking up a place are inverse to each other. */
  ghost predicate IsInverse(placement: RemoteMerge.Placement, owned: seq<seq<nat>>) {
    && (forall lp | 0 <= lp < |placement| ::
          var home := placement[lp];
          IsPlace(owned, home.worker, home.slot) && owned[home.worker][home.slot] == lp)
    && (forall w, s | IsPlace(owned, w, s) ::
          owned[w][s] < |placement| && placement[owned[w][s]] == RemoteMerge.Home(w, s))
  }

  datatype Policy = Modulo | RouteLoad

  /** The offered load of a process; one without an entry has none. */
  function Offered(work: seq<nat>, lp: nat): nat { if lp < |work| then work[lp] else 0 }

  /** Heavier processes come first, and of equals the lower number. */
  predicate RanksBefore(work: seq<nat>, a: nat, b: nat) {
    Offered(work, a) > Offered(work, b) || (Offered(work, a) == Offered(work, b) && a < b)
  }

  ghost predicate IsRanked(work: seq<nat>, order: seq<nat>) {
    forall i, j | 0 <= i < j < |order| :: RanksBefore(work, order[i], order[j])
  }

  lemma InsertKeepsRank(work: seq<nat>, order: seq<nat>, lp: nat, i: nat)
    requires IsRanked(work, order) && i <= |order| && lp !in order
    requires forall k | 0 <= k < i :: RanksBefore(work, order[k], lp)
    requires i < |order| ==> !RanksBefore(work, order[i], lp)
    ensures IsRanked(work, order[..i] + [lp] + order[i..])
  {
    var after := order[..i] + [lp] + order[i..];
    forall k | i <= k < |order|
      ensures RanksBefore(work, lp, order[k])
    {
      assert k > i ==> RanksBefore(work, order[i], order[k]);
    }
  }

  /** All processes below `count`, ranked. */
  method Rank(work: seq<nat>, count: nat) returns (order: seq<nat>)
    ensures |order| == count && Distinct(order) && IsRanked(work, order)
    ensures forall k | 0 <= k < |order| :: order[k] < count
  {
    order := [];
    for lp: nat := 0 to count
      invariant |order| == lp && IsRanked(work, order) && forall k | 0 <= k < |order| :: order[k] < lp
    {
      var i := 0;
      while i < |order| && RanksBefore(work, order[i], lp)
        invariant 0 <= i <= |order| && forall k | 0 <= k < i :: RanksBefore(work, order[k], lp)
      {
        i := i + 1;
      }
      InsertKeepsRank(work, order, lp, i);
      order := order[..i] + [lp] + order[i..];
    }
  }

  ghost function LoadsOf(work: seq<nat>, order: seq<nat>): seq<nat> {
    seq(|order|, i requires 0 <= i < |order| => Offered(work, order[i]))
  }

  /** Static placement under either policy is a bijection between processes and worker slots. By load, the
      processes are ranked by descending load, and while sums stay below 2^128 every worker's load is near
      the average and within Graham's factor of that of any other assignment. */
  method PlaceStatically(policy: Policy, work: seq<nat>, count: nat, workers: nat)
    returns (owned: seq<seq<nat>>, placement: Option<RemoteMerge.Placement>, ghost order: seq<nat>, ghost at: seq<nat>)
    requires workers > 0
    ensures placement.Some? && |placement.value| == count && |owned| == workers
    ensures IsInverse(placement.value, owned)
    ensures policy.Modulo? ==> forall lp | 0 <= lp < count :: placement.value[lp].worker == lp % workers
    ensures policy.RouteLoad? ==>
              && |order| == |at| == count && Distinct(order) && IsRanked(work, order)
              && (forall i | 0 <= i < count :: order[i] < count && placement.value[order[i]].worker == at[i])
              && (Sum(LoadsOf(work, order)) <= U128_MAX ==> WellBalanced(LoadsOf(work, order), at, workers))
  {
    hide Deals, Elements, Balanced, Covers, IsRanked, Sum, WellBalanced, LoadOf;
    order, at := [], [];
    match policy {
      case Modulo =>
        owned := DealByNumber(count, workers);
        NumbersCover(owned, count);
      case RouteLoad =>
        var ranked := Rank(work, count);
        var loads := seq(|ranked|, i requires 0 <= i < |ranked| => Offered(work, ranked[i]));
        var chosen;
        owned, chosen := DealByLoad(ranked, loads, workers);
        OrderCovers(owned, ranked);
        order, at := ranked, chosen;
        assert loads == LoadsOf(work, order);
        RankedDescends(work, order);
        if Sum(loads) <= U128_MAX {
          DescendingBalance(loads, at, workers);
        }
    }
    placement := BuildPlacement(owned, count);
    Inverse(owned, placement.value);
    AtHome(owned, placement.value, order, at);
  }

  /** Near the average, and within Graham's factor of any rival. */
  ghost predicate WellBalanced(loads: seq<nat>, at: seq<nat>, workers: nat)
    requires |at| <= |loads| && workers > 0
  {
    && (forall heaviest: nat | (forall i | 0 <= i < |loads| :: loads[i] <= heaviest) :: NearAverage(loads, at, workers, heaviest))
    && (forall rival, best, w: nat | Rival(loads, rival, workers, best) && w < workers ::
          WithinGraham(LoadOf(loads, at, w), workers, best))
  }

  lemma RankedDescends(work: seq<nat>, order: seq<nat>)
    requires IsRanked(work, order)
    ensures Descending(LoadsOf(work, order))
  {
    forall i, j | 0 <= i < j < |order|
      ensures LoadsOf(work, order)[j] <= LoadsOf(work, order)[i]
    {
      assert RanksBefore(work, order[i], order[j]);
    }
  }

  lemma DescendingBalance(loads: seq<nat>, at: seq<nat>, workers: nat)
    requires |at| <= |loads| && workers > 0 && Descending(loads) && Balanced(loads, at, workers)
    ensures WellBalanced(loads, at, workers)
  {
    hide NearAverage, WithinGraham, Descending, Rival, LoadOf;
  }

  /** The worker a process was dealt to is the one it is found at. */
  lemma AtHome(owned: seq<seq<nat>>, placement: RemoteMerge.Placement, order: seq<nat>, at: seq<nat>)
    requires IsInverse(placement, owned) && |at| == |order| && Assigns(at, |owned|)
    requires forall i | 0 <= i < |order| :: order[i] in owned[at[i]]
    ensures forall i | 0 <= i < |order| :: order[i] < |placement| && placement[order[i]].worker == at[i]
  {
    forall i | 0 <= i < |order|
      ensures order[i] < |placement| && placement[order[i]].worker == at[i]
    {
      var s :| 0 <= s < |owned[at[i]]| && owned[at[i]][s] == order[i];
      assert IsPlace(owned, at[i], s);
    }
  }

  lemma NumbersCover(owned: seq<seq<nat>>, count: nat)
    requires Deals(owned, Elements(Numbers(count)))
    ensures Covers(owned, count) && NoRepeats(owned)
  {
    forall w, s | IsPlace(owned, w, s)
      ensures owned[w][s] < count
    {
      assert Holds(owned, owned[w][s]);
    }
    forall lp | 0 <= lp < count
      ensures Holds(owned, lp)
    {
      assert Numbers(count)[lp] == lp;
    }
  }

  ghost predicate NoRepeats(owned: seq<seq<nat>>) {
    forall w, s, w', s' {:trigger IsPlace(owned, w, s), IsPlace(owned, w', s')} |
      IsPlace(owned, w, s) && IsPlace(owned, w', s') && owned[w][s] == owned[w'][s'] :: w == w' && s == s'
  }

  /** Distinct numbers below their count are all the numbers below it. */
  lemma {:induction false} AllNumbers(order: seq<nat>, lp: nat)
    requires Distinct(order) && (forall x | x in order :: x < |order|) && lp < |order|
    ensures lp in order
  {
    var numbers := Numbers(|order|);
    ElementsCount(order);
    ElementsCount(numbers);
    forall x | x in order
      ensures x in numbers
    {
      assert numbers[x] == x;
    }
    SameSize(Elements(order), Elements(numbers));
    assert numbers[lp] in Elements(numbers);
    assert lp in Elements(order);
  }

  lemma {:induction false} ElementsCount(order: seq<nat>)
    requires Distinct(order)
    ensures |Elements(order)| == |order|
  {
    if order == [] {
      assert Elements(order) == {};
    } else {
      var init := order[..|order| - 1];
      ElementsCount(init);
      PrefixStep(order, |order| - 1);
      assert order[..|order| - 1 + 1] == order;
    }
  }

  lemma SameSize(a: set<nat>, b: set<nat>)
    requires a <= b && |a| == |b|
    ensures a == b
  {
    assert b == a + (b - a);
  }

  lemma OrderCovers(owned: seq<seq<nat>>, order: seq<nat>)
    requires Deals(owned, Elements(order)) && Distinct(order) && forall lp | lp in order :: lp < |order|
    ensures Covers(owned, |order|) && NoRepeats(owned)
  {
    forall w, s | IsPlace(owned, w, s)
      ensures owned[w][s] < |order|
    {
      assert Holds(owned, owned[w][s]);
    }
    forall lp | 0 <= lp < |order|
      ensures Holds(owned, lp)
    {
      AllNumbers(order, lp);
    }
  }

  lemma Inverse(owned: seq<seq<nat>>, placement: RemoteMerge.Placement)
    requires NoRepeats(owned) && Covers(owned, |placement|)
    requires forall lp | 0 <= lp < |placement| ::
               var home := placement[lp];
               IsPlace(owned, home.worker, home.slot) && owned[home.worker][home.slot] == lp
    ensures IsInverse(placement, owned)
  {
    forall w, s | IsPlace(owned, w, s)
      ensures placement[owned[w][s]] == RemoteMerge.Home(w, s)
    {
      var home := placement[owned[w][s]];
      assert IsPlace(owned, home.worker, home.slot) && owned[home.worker][home.slot] == owned[w][s];
    }
  }

  /** A ranking puts the heavier first, of two equals the lower number, an absent load counting as zero. */
  lemma RankingIs(work: seq<nat>, order: seq<nat>, i: nat, j: nat)
    requires IsRanked(work, order) && i < j < |order|
    ensures var x, y := order[i], order[j];
            && (x < |work| && y < |work| ==> work[x] > work[y] || (work[x] == work[y] && x < y))
            && (y < |work| <= x ==> work[y] == 0 && x < y)
            && (|work| <= x && |work| <= y ==> x < y)
  {
    assert RanksBefore(work, order[i], order[j]);
  }
}
