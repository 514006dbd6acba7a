/** Small arithmetic that several modules share. */
module Basics {
  function Min(a: int, b: int): int { if a < b then a else b }

  function Max(a: int, b: int): int { if a < b then b else a }

  function Sum(ns: seq<nat>): nat {
    if ns == [] then 0 else Sum(ns[..|ns| - 1]) + ns[|ns| - 1]
  }

  lemma {:induction false} SumUpdate(ns: seq<nat>, i: nat, x: nat)
    requires i < |ns|
    ensures Sum(ns[i := x]) + ns[i] == Sum(ns) + x
  {
    var last := |ns| - 1;
    if i < last {
      assert ns[i := x][..last] == ns[..last][i := x];
      SumUpdate(ns[..last], i, x);
    } else {
      assert ns[i := x][..last] == ns[..last];
    }
  }

  /** A set of numbers below `n` has at most `n` of them. */
  lemma {:induction false} AtMost(of: set<nat>, n: nat)
    requires forall x | x in of :: x < n
    ensures |of| <= n
  {
    if n > 0 {
      AtMost(of - {n - 1}, n - 1);
    } else {
      assert of == {};
    }
  }

  /** An index past the end of a ring by less than its length wraps once. */
  lemma WrapsOnce(x: nat, capacity: nat)
    requires x < 2 * capacity
    ensures x % capacity == if x < capacity then x else x - capacity
  {
  }

  ghost predicate Ascending(s: seq<nat>) { forall i, j | 0 <= i < j < |s| :: s[i] < s[j] }

  /** The members of a set, ascending. */
  method Sorted(members: set<nat>) returns (list: seq<nat>)
    ensures Ascending(list) && forall x :: x in list <==> x in members
  {
    list := [];
    var left := members;
    while left != {}
      invariant left <= members && Ascending(list)
      invariant forall x :: x in list <==> x in members && x !in left
      invariant forall x, y | x in list && y in left :: x < y
      decreases |left|
    {
      var least: nat :| least in left;
      var others := left - {least};
      while others != {}
        invariant least in left && others <= left
        invariant forall x | x in left && x !in others :: least <= x
        decreases |others|
      {
        var x: nat :| x in others;
        others := others - {x};
        if x < least {
          least := x;
        }
      }
      forall i | 0 <= i < |list|
        ensures list[i] < least
      {
        assert list[i] in list && least in left;
      }
      list, left := list + [least], left - {least};
    }
  }

  lemma AscendingInit(a: seq<nat>, x: nat)
    requires Ascending(a) && a != []
    ensures Ascending(a[..|a| - 1]) && (x in a[..|a| - 1] <==> x in a && x != a[|a| - 1])
    ensures x in a ==> x <= a[|a| - 1]
  {
    var few := a[..|a| - 1];
    assert a == few + [a[|a| - 1]];
    if x in few {
      var i :| 0 <= i < |few| && few[i] == x;
      assert a[i] < a[|a| - 1];
    }
  }

  /** An ascending list is determined by its members. */
  lemma {:induction false} OneAscending(a: seq<nat>, b: seq<nat>)
    requires Ascending(a) && Ascending(b) && forall x: nat :: x in a <==> x in b
    ensures a == b
    decreases |a|
  {
    if a == [] {
      assert forall i | 0 <= i < |b| :: b[i] in b;
    } else {
      var x := a[|a| - 1];
      assert x in a && x in b;
      var y := b[|b| - 1];
      assert y in b && y in a;
      AscendingInit(a, y);
      AscendingInit(b, x);
      var few, rest := a[..|a| - 1], b[..|b| - 1];
      forall z: nat
        ensures z in few <==> z in rest
      {
        AscendingInit(a, z);
        AscendingInit(b, z);
      }
      OneAscending(few, rest);
      assert a == few + [x] && b == rest + [y];
    }
  }

  /** The slot of place `i` of a ring, counted from its head. */
  function RingSlot(capacity: nat, head: nat, i: nat): nat { (head + i) % (if capacity == 0 then 1 else capacity) }

  /** The ring starts at its head, and each place is followed by the next slot, the last slot by the first. */
  lemma RingTurns(capacity: nat, head: nat, i: nat)
    requires head < capacity
    ensures RingSlot(capacity, head, 0) == head
    ensures var at := RingSlot(capacity, head, i);
            at < capacity && RingSlot(capacity, head, i + 1) == if at + 1 == capacity then 0 else at + 1
  {
    var q, r := (head + i) / capacity, (head + i) % capacity;
    assert head + i == q * capacity + r;
    if r + 1 == capacity {
      assert head + i + 1 == (q + 1) * capacity + 0 by { assert (q + 1) * capacity == q * capacity + capacity; }
      RemainderIs(head + i + 1, q + 1, capacity, 0);
    } else {
      RemainderIs(head + i + 1, q, capacity, r + 1);
    }
    RemainderIs(head, 0, capacity, head);
  }

  lemma Gap(a: nat, b: nat, d: nat)
    requires a < b
    ensures a * d + d <= b * d
  {
    var more := b - a - 1;
    assert more * d >= 0;
    assert (a + 1 + more) * d == a * d + d + more * d;
  }

  lemma RemainderIs(x: nat, q: nat, d: nat, r: nat)
    requires d > 0 && r < d && x == q * d + r
    ensures x / d == q && x % d == r
  {
    var q', r' := x / d, x % d;
    assert x == q' * d + r';
    if q' < q {
      Gap(q', q, d);
    } else if q < q' {
      Gap(q, q', d);
    }
  }

  /** Counting from one place further is counting one further. */
  lemma NextHead(capacity: nat, head: nat, i: nat)
    requires head < capacity
    ensures RingSlot(capacity, RingSlot(capacity, head, 1), i) == RingSlot(capacity, head, i + 1)
    decreases i
  {
    if i == 0 {
      RingTurns(capacity, head, 0);
      RingTurns(capacity, RingSlot(capacity, head, 1), 0);
    } else {
      RingTurns(capacity, head, 0);
      NextHead(capacity, head, i - 1);
      RingTurns(capacity, head, i);
      RingTurns(capacity, RingSlot(capacity, head, 1), i - 1);
    }
  }

  lemma DivideTwice(n: nat, a: nat, p: nat)
    requires a > 0 && p > 0
    ensures a * p > 0 && n / a / p == n / (a * p)
  {
    var q, r := n / a / p, n / a % p;
    assert n / a == q * p + r;
    assert n == a * (q * p + r) + n % a;
    Distributes(a, q * p, r);
    assert a * (q * p) == q * (a * p);
    var rest := a * r + n % a;
    TimesUpTo(a, r, p);
    RemainderIs(n, q, a * p, rest);
  }

  lemma Distributes(a: nat, x: nat, y: nat)
    ensures a * (x + y) == a * x + a * y
  {
  }

  lemma TimesUpTo(a: nat, r: nat, p: nat)
    requires r < p
    ensures 0 <= a * r <= a * p - a
  {
    assert a * (p - 1 - r) == a * p - a - a * r;
  }
}
