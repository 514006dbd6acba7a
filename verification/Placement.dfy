/** Static ownership: how processes are dealt out to workers, and how heavy the heaviest worker gets. */
module Placement {
  import opened Basics
  import opened RemoteMerge
  import Words

  /** The load of worker `w` when item `i` goes to worker `at[i]`. */
  function LoadOf(loads: seq<nat>, at: seq<nat>, w: nat): nat
    requires |at| <= |loads|
  {
    if at == [] then 0
    else LoadOf(loads, at[..|at| - 1], w) + if at[|at| - 1] == w then loads[|at| - 1] else 0
  }

  function CountOf(at: seq<nat>, w: nat): nat {
    if at == [] then 0 else CountOf(at[..|at| - 1], w) + if at[|at| - 1] == w then 1 else 0
  }

  /** The sum of `f` over the first `n` workers. */
  function Over(f: nat -> nat, n: nat): nat {
    if n == 0 then 0 else Over(f, n - 1) + f(n - 1)
  }

  lemma {:induction false} OverPointwise(f: nat -> nat, g: nat -> nat, at: nat, extra: nat, n: nat)
    requires forall w: nat | w < n :: f(w) == g(w) + if w == at then extra else 0
    ensures Over(f, n) == Over(g, n) + if at < n then extra else 0
  {
    if n > 0 {
      OverPointwise(f, g, at, extra, n - 1);
    }
  }

  lemma {:induction false} OverZero(f: nat -> nat, n: nat)
    requires forall w: nat | w < n :: f(w) == 0
    ensures Over(f, n) == 0
  {
    if n > 0 {
      OverZero(f, n - 1);
    }
  }

  ghost predicate Assigns(at: seq<nat>, workers: nat) { forall i | 0 <= i < |at| :: at[i] < workers }

  /** The loads of all workers add up to the load of the items. */
  lemma {:induction false} LoadsAddUp(loads: seq<nat>, at: seq<nat>, workers: nat)
    requires |at| <= |loads| && Assigns(at, workers)
    ensures Over((w: nat) => LoadOf(loads, at, w), workers) == Sum(loads[..|at|])
  {
    if at == [] {
      OverZero((w: nat) => LoadOf(loads, at, w), workers);
    } else {
      var init, last := at[..|at| - 1], at[|at| - 1];
      LoadsAddUp(loads, init, workers);
      OverPointwise((w: nat) => LoadOf(loads, at, w), (w: nat) => LoadOf(loads, init, w), last, loads[|at| - 1], workers);
      assert loads[..|at|][..|at| - 1] == loads[..|at| - 1];
    }
  }

  lemma {:induction false} CountsAddUp(at: seq<nat>, workers: nat)
    requires Assigns(at, workers)
    ensures Over((w: nat) => CountOf(at, w), workers) == |at|
  {
    if at == [] {
      OverZero((w: nat) => CountOf(at, w), workers);
    } else {
      var init, last := at[..|at| - 1], at[|at| - 1];
      CountsAddUp(init, workers);
      OverPointwise((w: nat) => CountOf(at, w), (w: nat) => CountOf(init, w), last, 1, workers);
    }
  }

  lemma {:induction false} OverAtLeast(f: nat -> nat, least: nat, n: nat)
    requires forall w: nat | w < n :: least <= f(w)
    ensures n * least <= Over(f, n)
  {
    if n > 0 {
      OverAtLeast(f, least, n - 1);
      assert n * least == (n - 1) * least + least;
    }
  }

  lemma {:induction false} OverAtMost(f: nat -> nat, most: nat, n: nat)
    requires forall w: nat | w < n :: f(w) <= most
    ensures Over(f, n) <= n * most
  {
    if n > 0 {
      OverAtMost(f, most, n - 1);
      assert n * most == (n - 1) * most + most;
    }
  }

  /** The least loaded worker carries no more than its share. */
  lemma LeastShare(loads: seq<nat>, at: seq<nat>, workers: nat, least: nat)
    requires |at| <= |loads| && Assigns(at, workers)
    requires forall w: nat | w < workers :: least <= LoadOf(loads, at, w)
    ensures workers * least <= Sum(loads[..|at|])
  {
    OverAtLeast((w: nat) => LoadOf(loads, at, w), least, workers);
    LoadsAddUp(loads, at, workers);
  }

  lemma {:induction false} SumGrows(loads: seq<nat>, i: nat)
    requires i <= |loads|
    ensures Sum(loads[..i]) <= Sum(loads)
    decreases |loads| - i
  {
    if i < |loads| {
      assert loads[..i + 1][..i] == loads[..i];
      SumGrows(loads, i + 1);
    } else {
      assert loads[..i] == loads;
    }
  }

  /** Each worker is within the average plus what one heaviest item can add. */
  ghost predicate NearAverage(loads: seq<nat>, at: seq<nat>, workers: nat, heaviest: nat)
    requires |at| <= |loads| && workers > 0
  {
    forall w: nat | w < workers :: workers * LoadOf(loads, at, w) <= Sum(loads[..|at|]) + (workers - 1) * heaviest
  }

  lemma LoadStep(loads: seq<nat>, at: seq<nat>, chosen: nat, w: nat)
    requires |at| < |loads|
    ensures LoadOf(loads, at + [chosen], w) == LoadOf(loads, at, w) + if w == chosen then loads[|at|] else 0
    ensures Sum(loads[..|at| + 1]) == Sum(loads[..|at|]) + loads[|at|]
  {
    assert (at + [chosen])[..|at|] == at;
    assert loads[..|at| + 1][..|at|] == loads[..|at|];
  }

  lemma AverageStep(w: nat, m: nat, l: nat, sum: nat, heaviest: nat)
    requires w > 0 && w * m <= sum && l <= heaviest
    ensures w * (m + l) <= sum + l + (w - 1) * heaviest
  {
    assert w * (m + l) == w * m + l + (w - 1) * l;
    Words.Scaled(l, heaviest, w - 1);
    assert (w - 1) * l == l * (w - 1) && (w - 1) * heaviest == heaviest * (w - 1);
  }

  /** Giving the next item to a least loaded worker keeps every worker near the average. */
  lemma StaysNearAverage(loads: seq<nat>, at: seq<nat>, workers: nat, heaviest: nat, chosen: nat)
    requires |at| < |loads| && workers > 0 && chosen < workers && Assigns(at, workers)
    requires NearAverage(loads, at, workers, heaviest) && loads[|at|] <= heaviest
    requires forall w: nat | w < workers :: LoadOf(loads, at, chosen) <= LoadOf(loads, at, w)
    ensures NearAverage(loads, at + [chosen], workers, heaviest)
  {
    hide Sum, LoadOf;
    LeastShare(loads, at, workers, LoadOf(loads, at, chosen));
    forall w: nat | w < workers
      ensures workers * LoadOf(loads, at + [chosen], w) <= Sum(loads[..|at| + 1]) + (workers - 1) * heaviest
    {
      LoadStep(loads, at, chosen, w);
      AverageStep(workers, LoadOf(loads, at, chosen), loads[|at|], Sum(loads[..|at|]), heaviest);
    }
  }

  /** Another way to place all items, under which no worker carries more than `best`. */
  ghost predicate Rival(loads: seq<nat>, rival: seq<nat>, workers: nat, best: nat) {
    && |rival| == |loads| && Assigns(rival, workers)
    && forall w: nat | w < workers :: LoadOf(loads, rival, w) <= best
  }

  ghost predicate Descending(loads: seq<nat>) {
    forall i, j | 0 <= i < j < |loads| :: loads[j] <= loads[i]
  }

  /** All items together fit the rival. */
  lemma TotalFits(loads: seq<nat>, rival: seq<nat>, workers: nat, best: nat)
    requires Rival(loads, rival, workers, best)
    ensures Sum(loads) <= workers * best
  {
    OverAtMost((w: nat) => LoadOf(loads, rival, w), best, workers);
    LoadsAddUp(loads, rival, workers);
    assert loads[..|rival|] == loads;
  }

  /** Among the first `n` items, those on one worker of the rival fit its load. */
  lemma {:induction false} PrefixLoad(loads: seq<nat>, rival: seq<nat>, n: nat, w: nat)
    requires n <= |rival| <= |loads|
    ensures LoadOf(loads, rival[..n], w) <= LoadOf(loads, rival, w)
    decreases |rival| - n
  {
    if n < |rival| {
      assert rival[..n + 1][..n] == rival[..n];
      PrefixLoad(loads, rival, n + 1, w);
    } else {
      assert rival[..n] == rival;
    }
  }

  /** Several items on one worker weigh at least as much as so many of the lightest. */
  lemma {:induction false} CountWeighs(loads: seq<nat>, at: seq<nat>, w: nat, lightest: nat)
    requires |at| <= |loads| && forall i | 0 <= i < |at| :: lightest <= loads[i]
    ensures CountOf(at, w) * lightest <= LoadOf(loads, at, w)
  {
    if at != [] {
      CountWeighs(loads, at[..|at| - 1], w, lightest);
      var c := CountOf(at[..|at| - 1], w);
      assert (c + 1) * lightest == c * lightest + lightest;
    }
  }

  /** A worker with `i` and at least one more item carries both. */
  lemma {:induction false} TwoWeigh(loads: seq<nat>, at: seq<nat>, w: nat, i: nat, lightest: nat)
    requires |at| <= |loads| && i < |at| && at[i] == w && CountOf(at, w) >= 2
    requires forall k | 0 <= k < |at| :: lightest <= loads[k]
    ensures loads[i] + lightest <= LoadOf(loads, at, w)
  {
    var init, last := at[..|at| - 1], |at| - 1;
    if i == last {
      CountWeighs(loads, init, w, lightest);
      Words.Scaled(1, CountOf(init, w), lightest);
    } else if at[last] == w {
      OneWeighs(loads, init, w, i);
    } else {
      TwoWeigh(loads, init, w, i, lightest);
    }
  }

  lemma {:induction false} OneWeighs(loads: seq<nat>, at: seq<nat>, w: nat, i: nat)
    requires |at| <= |loads| && i < |at| && at[i] == w
    ensures loads[i] <= LoadOf(loads, at, w) && CountOf(at, w) >= 1
  {
    if i < |at| - 1 {
      OneWeighs(loads, at[..|at| - 1], w, i);
    }
  }

  /** The only item of a worker that has one. */
  lemma {:induction false} OnlyItem(loads: seq<nat>, at: seq<nat>, w: nat) returns (i: nat)
    requires |at| <= |loads| && CountOf(at, w) >= 1
    ensures i < |at| && at[i] == w
    ensures CountOf(at, w) == 1 ==> LoadOf(loads, at, w) == loads[i]
  {
    var init, last := at[..|at| - 1], |at| - 1;
    if at[last] == w {
      i := last;
      if CountOf(init, w) == 0 {
        NoItem(loads, init, w);
      }
    } else {
      i := OnlyItem(loads, init, w);
    }
  }

  lemma {:induction false} NoItem(loads: seq<nat>, at: seq<nat>, w: nat)
    requires |at| <= |loads| && CountOf(at, w) == 0
    ensures LoadOf(loads, at, w) == 0
  {
    if at != [] {
      NoItem(loads, at[..|at| - 1], w);
    }
  }

  /** Workers outside `few` have at least two items, the others at least one. */
  lemma {:induction false} OverTwoExcept(f: nat -> nat, few: set<nat>, n: nat)
    requires forall w: nat | w < n :: f(w) >= if w in few then 1 else 2
    requires forall w | w in few :: w < n
    ensures Over(f, n) + |few| >= 2 * n
  {
    if n == 0 {
      assert few == {};
    } else {
      OverTwoExcept(f, few - {n - 1}, n - 1);
    }
  }

  /** Workers outside `few` have at most two items, the others at most one. */
  lemma {:induction false} OverTwoAtMost(f: nat -> nat, few: set<nat>, n: nat)
    requires forall w: nat | w < n :: f(w) <= if w in few then 1 else 2
    requires forall w | w in few :: w < n
    ensures Over(f, n) + |few| <= 2 * n
  {
    if n == 0 {
      assert few == {};
    } else {
      OverTwoAtMost(f, few - {n - 1}, n - 1);
    }
  }

  lemma {:induction false} TwoItemsCount(at: seq<nat>, w: nat, i: nat, k: nat)
    requires i < k < |at| && at[i] == w && at[k] == w
    ensures CountOf(at, w) >= 2
  {
    var init := at[..|at| - 1];
    if k < |at| - 1 {
      TwoItemsCount(init, w, i, k);
    } else {
      CountsItem(init, w, i);
    }
  }

  lemma {:induction false} CountsItem(at: seq<nat>, w: nat, i: nat)
    requires i < |at| && at[i] == w
    ensures CountOf(at, w) >= 1
  {
    if i < |at| - 1 {
      CountsItem(at[..|at| - 1], w, i);
    }
  }

  /** An item that the greedy placement put on a worker of `of` is on worker `h` of the rival. */
  ghost predicate Hosts(at: seq<nat>, rival: seq<nat>, of: set<nat>, h: nat)
    requires |at| <= |rival|
  {
    exists i :: 0 <= i < |at| && rival[i] == h && at[i] in of
  }

  /** What is supposed for contradiction: the next item, more than a third of the best, fits nowhere. */
  ghost predicate FitsNowhere(loads: seq<nat>, at: seq<nat>, workers: nat, rival: seq<nat>, best: nat) {
    && |at| < |loads| && Assigns(at, workers) && Descending(loads) && Rival(loads, rival, workers, best)
    && 3 * loads[|at|] > best
    && forall w: nat | w < workers :: LoadOf(loads, at, w) + loads[|at|] > best
  }

  lemma NextFits(loads: seq<nat>, rival: seq<nat>, workers: nat, best: nat, j: nat)
    requires Rival(loads, rival, workers, best) && j < |loads|
    ensures loads[j] <= best
  {
    OneWeighs(loads, rival, rival[j], j);
  }

  /** No rival worker has more than two of the items so far and the next. */
  lemma RivalHasTwo(loads: seq<nat>, at: seq<nat>, workers: nat, rival: seq<nat>, best: nat, w: nat)
    requires FitsNowhere(loads, at, workers, rival, best) && w < workers
    ensures CountOf(rival[..|at| + 1], w) <= 2
  {
    var prefix, l := rival[..|at| + 1], loads[|at|];
    CountWeighs(loads, prefix, w, l);
    PrefixLoad(loads, rival, |at| + 1, w);
    if CountOf(prefix, w) >= 3 {
      Words.Scaled(3, CountOf(prefix, w), l);
    }
  }

  /** The only item of a greedy worker is alone on its rival worker. */
  lemma AloneAtRival(loads: seq<nat>, at: seq<nat>, workers: nat, rival: seq<nat>, best: nat, w: nat) returns (i: nat)
    requires FitsNowhere(loads, at, workers, rival, best) && w < workers && CountOf(at, w) == 1
    ensures i < |at| && at[i] == w && rival[i] < workers && CountOf(rival[..|at| + 1], rival[i]) == 1
  {
    i := OnlyItem(loads, at, w);
    var prefix, h := rival[..|at| + 1], rival[i];
    assert prefix[i] == h;
    CountsItem(prefix, h, i);
    PrefixLoad(loads, rival, |at| + 1, h);
    if CountOf(prefix, h) >= 2 {
      TwoWeigh(loads, prefix, h, i, loads[|at|]);
    }
  }

  /** As many rival workers have one item as greedy workers in `of`. */
  lemma {:induction false} FindHosts(loads: seq<nat>, at: seq<nat>, workers: nat, rival: seq<nat>, best: nat, of: set<nat>)
    returns (hosts: set<nat>)
    requires FitsNowhere(loads, at, workers, rival, best)
    requires forall w | w in of :: w < workers && CountOf(at, w) == 1
    ensures |hosts| == |of|
    ensures forall h | h in hosts :: h < workers && CountOf(rival[..|at| + 1], h) == 1 && Hosts(at, rival, of, h)
    decreases of
  {
    if of == {} {
      hosts := {};
    } else {
      var w :| w in of;
      var rest := FindHosts(loads, at, workers, rival, best, of - {w});
      var i := AloneAtRival(loads, at, workers, rival, best, w);
      var h := rival[i];
      if h in rest {
        var k :| 0 <= k < |at| && rival[k] == h && at[k] in of - {w};
        assert rival[..|at| + 1][i] == h && rival[..|at| + 1][k] == h;
        TwoItemsCount(rival[..|at| + 1], h, if i < k then i else k, if i < k then k else i);
        assert false;
      }
      hosts := rest + {h};
      forall x | x in rest
        ensures Hosts(at, rival, of, x)
      {
        var k :| 0 <= k < |at| && rival[k] == x && at[k] in of - {w};
      }
      assert Hosts(at, rival, of, h);
    }
  }

  /** An item of more than a third of the best always fits: counting items rules the contrary out. */
  lemma HeavyItemFits(loads: seq<nat>, at: seq<nat>, workers: nat, rival: seq<nat>, best: nat)
    requires |at| < |loads| && Assigns(at, workers) && Descending(loads) && Rival(loads, rival, workers, best)
    requires 3 * loads[|at|] > best
    ensures exists w: nat :: w < workers && LoadOf(loads, at, w) + loads[|at|] <= best
  {
    if !(exists w: nat :: w < workers && LoadOf(loads, at, w) + loads[|at|] <= best) {
      assert FitsNowhere(loads, at, workers, rival, best);
      var prefix := rival[..|at| + 1];
      var singles := set w | 0 <= w < workers && CountOf(at, w) == 1;
      NextFits(loads, rival, workers, best, |at|);
      forall w: nat | w < workers
        ensures CountOf(at, w) >= if w in singles then 1 else 2
        ensures CountOf(prefix, w) <= 2
      {
        if CountOf(at, w) == 0 {
          NoItem(loads, at, w);
        }
        RivalHasTwo(loads, at, workers, rival, best, w);
      }
      var hosts := FindHosts(loads, at, workers, rival, best, singles);
      OverTwoExcept((w: nat) => CountOf(at, w), singles, workers);
      OverTwoAtMost((w: nat) => CountOf(prefix, w), hosts, workers);
      CountsAddUp(at, workers);
      CountsAddUp(prefix, workers);
      assert false;
    }
  }

  /** Within four thirds less a third of a share of the best. */
  ghost predicate WithinGraham(load: nat, workers: nat, best: nat) {
    3 * workers * load <= (4 * workers - 1) * best
  }

  lemma LightTerms(w: nat, m: nat, l: nat, best: nat)
    requires w > 0
    ensures 3 * w * (m + l) == 3 * (w * m + l) + 3 * l * (w - 1)
    ensures (4 * w - 1) * best == 3 * (w * best) + best * (w - 1)
  {
  }

  lemma LightArithmetic(w: nat, m: nat, l: nat, total: nat, best: nat)
    requires w > 0 && w * m + l <= total <= w * best && 3 * l <= best
    ensures WithinGraham(m + l, w, best)
  {
    LightTerms(w, m, l, best);
    Words.Scaled(3 * l, best, w - 1);
  }

  lemma HeavyArithmetic(load: nat, w: nat, best: nat)
    requires w > 0 && load <= best
    ensures WithinGraham(load, w, best)
  {
    Words.Scaled(load, best, 3 * w);
    assert 3 * w * load == load * (3 * w) && (4 * w - 1) * best == best * (3 * w) + (w - 1) * best;
    assert (w - 1) * best >= 0;
  }

  /** Graham's bound for one step: placing the items by descending load, each on a least loaded
      worker, no load exceeds (4/3 - 1/(3W)) times the heaviest load of any other placement. */
  lemma StepWithinGraham(loads: seq<nat>, at: seq<nat>, workers: nat, rival: seq<nat>, best: nat, chosen: nat)
    requires |at| < |loads| && Assigns(at, workers) && Descending(loads) && Rival(loads, rival, workers, best)
    requires chosen < workers
    requires forall w: nat | w < workers :: LoadOf(loads, at, chosen) <= LoadOf(loads, at, w)
    ensures WithinGraham(LoadOf(loads, at, chosen) + loads[|at|], workers, best)
  {
    hide LoadOf, Sum, WithinGraham, Descending, Rival;
    var m, l := LoadOf(loads, at, chosen), loads[|at|];
    if 3 * l <= best {
      LeastShare(loads, at, workers, m);
      LoadStep(loads, at, chosen, chosen);
      SumGrows(loads, |at| + 1);
      TotalFits(loads, rival, workers, best);
      LightArithmetic(workers, m, l, Sum(loads), best);
    } else {
      HeavyItemFits(loads, at, workers, rival, best);
      HeavyArithmetic(m + l, workers, best);
    }
  }
}
