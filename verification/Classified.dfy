/** The choices of a classified round: how many workers are set aside, and who runs which process. */
module Classified {
  import opened Basics
  import opened Events

  /** An active process: its node, the worker it lives at, and whether its work exceeds the threshold. */
  datatype Item = Item(node: U64, owner: nat, straggler: bool)

  /** How many workers a round sets aside for stragglers. */
  function Dedicated(workers: nat, configured: nat, anyStraggler: bool): nat {
    if anyStraggler then Min(configured, Max(if workers == 0 then 0 else workers - 1, 1)) else 0
  }

  /** The disjunction of the flags, in whatever order they are read. */
  method FoldPresence(flags: seq<bool>) returns (any: bool)
    ensures any <==> exists w :: 0 <= w < |flags| && flags[w]
  {
    any := false;
    for n := 0 to |flags|
      invariant any <==> exists w :: 0 <= w < n && flags[w]
    {
      any := any || flags[n];
    }
  }

  /** What a round knows when it routes: workers, dedicated count, and that a straggler was announced. */
  ghost predicate Routable(workers: nat, configured: nat, dedicated: nat, any: bool, item: Item) {
    && workers > 0 && configured > 0 && dedicated == Dedicated(workers, configured, any)
    && item.owner < workers && (item.straggler ==> any)
  }

  /** The worker that runs an active process. */
  function RouteOf(workers: nat, dedicated: nat, item: Item): nat
    requires item.straggler && workers > 1 ==> dedicated > 0
    requires dedicated <= workers && (workers > 1 ==> dedicated < workers)
  {
    if workers <= 1 then 0
    else if item.straggler then item.node % dedicated
    else if dedicated == 0 || item.owner >= dedicated then item.owner
    else dedicated + item.node % (workers - dedicated)
  }

  /** Every routing index is in range, and with two workers or more stragglers go to the dedicated
      workers and only they do. */
  lemma RouteIsRight(workers: nat, configured: nat, dedicated: nat, any: bool, item: Item)
    requires Routable(workers, configured, dedicated, any, item)
    ensures dedicated <= workers && (workers > 1 ==> dedicated < workers) && (item.straggler && workers > 1 ==> dedicated > 0)
    ensures RouteOf(workers, dedicated, item) < workers
    ensures workers > 1 ==> (item.straggler <==> RouteOf(workers, dedicated, item) < dedicated)
  {
  }

  /** The items of a list that go to worker `v`. */
  function RoutedTo(items: seq<Item>, route: seq<nat>, v: nat): seq<Item>
    requires |items| == |route|
  {
    if items == [] then []
    else
      var n := |items| - 1;
      RoutedTo(items[..n], route[..n], v) + if route[n] == v then [items[n]] else []
  }

  lemma RoutedSnoc(items: seq<Item>, route: seq<nat>, n: nat, v: nat)
    requires n < |items| == |route|
    ensures RoutedTo(items[..n + 1], route[..n + 1], v) ==
            RoutedTo(items[..n], route[..n], v) + if route[n] == v then [items[n]] else []
  {
    assert items[..n + 1][..n] == items[..n] && route[..n + 1][..n] == route[..n];
  }

  /** Sorts items into one list for each worker. */
  method SortByWorker(items: seq<Item>, route: seq<nat>, workers: nat) returns (lists: seq<seq<Item>>)
    requires |items| == |route| && forall i | 0 <= i < |route| :: route[i] < workers
    ensures |lists| == workers && forall v | 0 <= v < workers :: lists[v] == RoutedTo(items, route, v)
  {
    lists := seq(workers, _ => []);
    for n := 0 to |items|
      invariant |lists| == workers && forall v | 0 <= v < workers :: lists[v] == RoutedTo(items[..n], route[..n], v)
    {
      var w := route[n];
      forall v | 0 <= v < workers
        ensures RoutedTo(items[..n + 1], route[..n + 1], v) ==
                RoutedTo(items[..n], route[..n], v) + if route[n] == v then [items[n]] else []
      {
        RoutedSnoc(items, route, n, v);
      }
      lists := lists[w := lists[w] + [items[n]]];
    }
    assert items[..|items|] == items && route[..|items|] == route;
  }

  /** All items of the lists of the first `n` workers. */
  function PooledRoutes(items: seq<Item>, route: seq<nat>, n: nat): multiset<Item>
    requires |items| == |route|
  {
    if n == 0 then multiset{} else PooledRoutes(items, route, n - 1) + multiset(RoutedTo(items, route, n - 1))
  }

  function Chosen(item: Item, yes: bool): multiset<Item> { if yes then multiset{item} else multiset{} }

  lemma ChosenStep(item: Item, v: nat, n: nat)
    requires n > 0
    ensures Chosen(item, v < n) == Chosen(item, v < n - 1) + Chosen(item, v == n - 1)
    ensures Chosen(item, v < 0) == multiset{}
  {
  }

  lemma RoutedBag(items: seq<Item>, route: seq<nat>, v: nat)
    requires |items| == |route| > 0
    ensures var k := |items| - 1;
            multiset(RoutedTo(items, route, v)) ==
            multiset(RoutedTo(items[..k], route[..k], v)) + Chosen(items[k], route[k] == v)
  {
  }

  lemma Shuffle(a: multiset<Item>, p: multiset<Item>, b: multiset<Item>, r: multiset<Item>)
    ensures a + p + (b + r) == a + b + (p + r)
  {
  }

  lemma PooledStep(items: seq<Item>, route: seq<nat>, n: nat)
    requires |items| == |route| && n > 0
    ensures PooledRoutes(items, route, n) == PooledRoutes(items, route, n - 1) + multiset(RoutedTo(items, route, n - 1))
    ensures PooledRoutes(items, route, 0) == multiset{}
  {
  }

  lemma {:induction false} PooledSnoc(items: seq<Item>, route: seq<nat>, n: nat)
    requires |items| == |route| > 0
    ensures var k := |items| - 1;
            PooledRoutes(items, route, n) ==
            PooledRoutes(items[..k], route[..k], n) + Chosen(items[k], route[k] < n)
  {
    hide RoutedTo, Chosen, PooledRoutes;
    var k := |items| - 1;
    if n == 0 {
      ChosenStep(items[k], route[k], 1);
      PooledStep(items, route, 1);
      PooledStep(items[..k], route[..k], 1);
    } else {
      PooledSnoc(items, route, n - 1);
      RoutedBag(items, route, n - 1);
      ChosenStep(items[k], route[k], n);
      PooledStep(items, route, n);
      PooledStep(items[..k], route[..k], n);
      Shuffle(PooledRoutes(items[..k], route[..k], n - 1), Chosen(items[k], route[k] < n - 1),
              multiset(RoutedTo(items[..k], route[..k], n - 1)), Chosen(items[k], route[k] == n - 1));
    }
  }

  /** Each active process goes to exactly one worker. */
  lemma {:induction false} EachRunsOnce(items: seq<Item>, route: seq<nat>, workers: nat)
    requires |items| == |route| && forall i | 0 <= i < |route| :: route[i] < workers
    ensures PooledRoutes(items, route, workers) == multiset(items)
  {
    hide PooledRoutes;
    if items == [] {
      NothingPooled(items, route, workers);
    } else {
      var k := |items| - 1;
      EachRunsOnce(items[..k], route[..k], workers);
      PooledSnoc(items, route, workers);
      assert items == items[..k] + [items[k]];
    }
  }

  lemma {:induction false} NothingPooled(items: seq<Item>, route: seq<nat>, n: nat)
    requires items == [] && route == []
    ensures PooledRoutes(items, route, n) == multiset{}
  {
    if n > 0 {
      NothingPooled(items, route, n - 1);
    }
  }

  /** The list of a worker has just the items that go to it. */
  lemma {:induction false} RoutedMember(items: seq<Item>, route: seq<nat>, v: nat, x: Item)
    requires |items| == |route|
    ensures x in RoutedTo(items, route, v) <==> exists k :: 0 <= k < |items| && items[k] == x && route[k] == v
  {
    if items != [] {
      var n := |items| - 1;
      RoutedMember(items[..n], route[..n], v, x);
      forall k | 0 <= k < n
        ensures items[..n][k] == items[k] && route[..n][k] == route[k]
      {
      }
    }
  }

  /** With a straggler anywhere, the configured number of workers is set aside whenever that leaves a bulk worker,
      and otherwise all but one; without one, none. */
  lemma DedicatedIsMost(workers: nat, configured: nat, any: bool)
    requires workers > 0 && configured > 0
    ensures !any ==> Dedicated(workers, configured, any) == 0
    ensures any && configured < workers ==> Dedicated(workers, configured, any) == configured
    ensures any && 1 < workers <= configured ==> Dedicated(workers, configured, any) == workers - 1
    ensures any && workers == 1 ==> Dedicated(workers, configured, any) == 1
  {
  }

  /** Stragglers are dealt over the dedicated workers by node, so that as many consecutive nodes as there are such
      workers never meet; bulk stays at its owner unless that is dedicated, and is then dealt over the others. */
  lemma RouteSpreads(workers: nat, dedicated: nat, a: Item, b: Item)
    requires 1 < workers && 0 < dedicated < workers && a.owner < workers && b.owner < workers
    ensures a.straggler && b.straggler && a.node < b.node < a.node + dedicated ==>
              RouteOf(workers, dedicated, a) != RouteOf(workers, dedicated, b)
    ensures !a.straggler && dedicated <= a.owner ==> RouteOf(workers, dedicated, a) == a.owner
    ensures !a.straggler && !b.straggler && a.owner < dedicated && b.owner < dedicated &&
            a.node < b.node < a.node + (workers - dedicated) ==>
              RouteOf(workers, dedicated, a) != RouteOf(workers, dedicated, b)
    ensures !a.straggler ==> RouteOf(workers, 0, a) == a.owner
  {
    if a.node < b.node < a.node + dedicated {
      Apart(a.node, b.node, dedicated);
    }
    if a.node < b.node < a.node + (workers - dedicated) {
      Apart(a.node, b.node, workers - dedicated);
    }
  }

  lemma Apart(x: nat, y: nat, d: nat)
    requires x < y < x + d
    ensures x % d != y % d
  {
    var p, q := x / d, y / d;
    assert x == p * d + x % d && y == q * d + y % d;
    if p < q && x % d == y % d {
      Gap(p, q, d);
    }
  }
}
