/**
 * The greedy packer. `_batch_parents` groups parent chunks for summarization with it, and
 * `build_parent_child_chunks` groups children into parents with the same loop.
 */
module Packing {
  import opened Sequences

  function Cost<T>(items: seq<T>, cost: T -> nat): nat {
    if items == [] then 0 else Cost(items[..|items| - 1], cost) + cost(items[|items| - 1])
  }

  /** The sum of some numbers. */
  function Total(ns: seq<nat>): nat {
    if ns == [] then 0 else ns[0] + Total(ns[1..])
  }

  lemma {:induction false} TotalAppend(a: seq<nat>, b: seq<nat>)
    ensures Total(a + b) == Total(a) + Total(b)
  {
    if a == [] {
      assert a + b == b;
    } else {
      assert (a + b)[1..] == a[1..] + b;
      TotalAppend(a[1..], b);
    }
  }

  /** What a loop adds up is the sum of the single costs. */
  lemma {:induction false} CostIsTotal<T>(items: seq<T>, cost: T -> nat, costs: seq<nat>)
    requires |costs| == |items| && forall i :: 0 <= i < |items| ==> costs[i] == cost(items[i])
    ensures Cost(items, cost) == Total(costs)
  {
    if items != [] {
      var n := |items| - 1;
      CostIsTotal(items[..n], cost, costs[..n]);
      TotalAppend(costs[..n], [costs[n]]);
      assert costs == costs[..n] + [costs[n]];
      assert [costs[n]][1..] == [];
    }
  }

  /** A group may exceed the cap only when it is a single item. */
  predicate Fits<T>(group: seq<T>, cost: T -> nat, cap: nat) {
    |group| == 1 || (group != [] && Cost(group, cost) <= cap)
  }

  /** A division of `items` into consecutive groups, each within the cap or a single item. */
  predicate IsPacking<T(==)>(groups: seq<seq<T>>, items: seq<T>, cost: T -> nat, cap: nat) {
    && Concat(groups) == items
    && forall g :: 0 <= g < |groups| ==> Fits(groups[g], cost, cap)
  }

  /** How far a group of n items that starts `items` grows before the next item overflows it. */
  function Grow<T>(items: seq<T>, cost: T -> nat, cap: nat, n: nat): (m: nat)
    requires n <= |items|
    ensures n <= m <= |items|
    decreases |items| - n
  {
    if n < |items| && Cost(items[..n], cost) + cost(items[n]) <= cap
    then Grow(items, cost, cap, n + 1)
    else n
  }

  function Greedy<T>(items: seq<T>, cost: T -> nat, cap: nat): seq<seq<T>> {
    if items == [] then []
    else
      var n := Grow(items, cost, cap, 1);
      [items[..n]] + Greedy(items[n..], cost, cap)
  }

  method Pack<T>(items: seq<T>, cost: T -> nat, cap: nat) returns (groups: seq<seq<T>>)
    ensures groups == Greedy(items, cost, cap)
  {
    hide Greedy, Grow;
    groups := [];
    var current: seq<T> := [];
    var tokens := 0;
    ghost var start := 0;
    assert items[0..] == items;
    for i := 0 to |items|
      invariant Packed(items, cost, cap, groups, start, i)
      invariant current == items[start..i] && tokens == Cost(current, cost)
    {
      var item := items[i];
      PackStep(items, cost, cap, groups, start, i);
      if current != [] && tokens + cost(item) > cap {
        groups := groups + [current];
        current := [];
        tokens := 0;
        start := i;
      }
      assert (current + [item])[..|current|] == current;
      current := current + [item];
      tokens := tokens + cost(item);
    }
    PackEnd(items, cost, cap, groups, start);
    assert items[start..|items|] == items[start..];
    if current != [] {
      groups := groups + [current];
    }
  }

  /** The first i items are packed: `groups` are closed and `items[start..i]` is the open group. */
  ghost predicate Packed<T>(items: seq<T>, cost: T -> nat, cap: nat, groups: seq<seq<T>>, start: nat, i: nat) {
    && start <= i <= |items|
    && (start == i ==> i == 0 && groups == [])
    && (start < i ==> Grow(items[start..], cost, cap, 1) == Grow(items[start..], cost, cap, i - start))
    && groups + Greedy(items[start..], cost, cap) == Greedy(items, cost, cap)
  }

  lemma PackStep<T>(items: seq<T>, cost: T -> nat, cap: nat, groups: seq<seq<T>>, start: nat, i: nat)
    requires Packed(items, cost, cap, groups, start, i) && i < |items|
    ensures start < i && Cost(items[start..i], cost) + cost(items[i]) > cap
            ==> Packed(items, cost, cap, groups + [items[start..i]], i, i + 1)
    ensures start == i || Cost(items[start..i], cost) + cost(items[i]) <= cap
            ==> Packed(items, cost, cap, groups, start, i + 1)
  {
    var rest := items[start..];
    assert rest[..i - start] == items[start..i] && rest[i - start..] == items[i..];
    if start < i && Cost(items[start..i], cost) + cost(items[i]) > cap {
      assert Greedy(rest, cost, cap) == [items[start..i]] + Greedy(items[i..], cost, cap);
      assert groups + ([items[start..i]] + Greedy(items[i..], cost, cap))
          == (groups + [items[start..i]]) + Greedy(items[i..], cost, cap);
    }
  }

  lemma PackEnd<T>(items: seq<T>, cost: T -> nat, cap: nat, groups: seq<seq<T>>, start: nat)
    requires Packed(items, cost, cap, groups, start, |items|)
    ensures Greedy(items, cost, cap) == if start == |items| then groups else groups + [items[start..]]
  {
    var rest := items[start..];
    if rest != [] {
      assert rest[..|rest|] == rest && rest[|rest|..] == [];
      assert Greedy(rest, cost, cap) == [rest];
    }
  }

  lemma {:induction false} CostAppend<T>(a: seq<T>, b: seq<T>, cost: T -> nat)
    ensures Cost(a + b, cost) == Cost(a, cost) + Cost(b, cost)
  {
    if b == [] {
      assert a + b == a;
    } else {
      var front := b[..|b| - 1];
      assert (a + b)[..|a + b| - 1] == a + front;
      CostAppend(a, front, cost);
    }
  }

  lemma {:induction false} GrowFits<T>(items: seq<T>, cost: T -> nat, cap: nat, n: nat)
    requires 1 <= n <= |items| && Fits(items[..n], cost, cap)
    ensures Fits(items[..Grow(items, cost, cap, n)], cost, cap)
    decreases |items| - n
  {
    if n < |items| && Cost(items[..n], cost) + cost(items[n]) <= cap {
      assert items[..n + 1][..n] == items[..n];
      GrowFits(items, cost, cap, n + 1);
    }
  }

  /** No longer prefix fits than the one `Grow` stops at. */
  lemma {:induction false} GrowIsLongest<T>(items: seq<T>, cost: T -> nat, cap: nat, n: nat, m: nat)
    requires 1 <= n <= |items| && 1 <= m <= |items| && Fits(items[..m], cost, cap)
    ensures m <= Grow(items, cost, cap, n)
    decreases |items| - n
  {
    if m > n {
      assert items[..m] == items[..n + 1] + items[n + 1..m];
      CostAppend(items[..n + 1], items[n + 1..m], cost);
      assert items[..n + 1][..n] == items[..n];
      GrowIsLongest(items, cost, cap, n + 1, m);
    }
  }

  lemma {:induction false} GreedyIsPacking<T>(items: seq<T>, cost: T -> nat, cap: nat)
    ensures IsPacking(Greedy(items, cost, cap), items, cost, cap)
    decreases |items|
  {
    if items != [] {
      var n := Grow(items, cost, cap, 1);
      GrowFits(items, cost, cap, 1);
      GreedyIsPacking(items[n..], cost, cap);
      assert items == items[..n] + items[n..];
      assert Greedy(items, cost, cap)[1..] == Greedy(items[n..], cost, cap);
    }
  }

  /** The first group of a suffix ends no earlier than the group it was cut from. */
  lemma SuffixGrowsAsFar<T>(items: seq<T>, cost: T -> nat, cap: nat, k: nat, n: nat, m: nat)
    requires items != [] && n == Grow(items, cost, cap, 1) && k < n
    requires m == Grow(items[k..], cost, cap, 1)
    ensures k + m >= n
  {
    hide Grow, Cost;
    var rest := items[k..];
    GrowFits(items, cost, cap, 1);
    assert items[..n] == items[..k] + items[k..n];
    CostAppend(items[..k], items[k..n], cost);
    assert rest[..n - k] == items[k..n];
    GrowIsLongest(rest, cost, cap, 1, n - k);
  }

  lemma OneGroupMore<T>(items: seq<T>, cost: T -> nat, cap: nat)
    requires items != []
    ensures |Greedy(items, cost, cap)| == 1 + |Greedy(items[Grow(items, cost, cap, 1)..], cost, cap)|
  {
    hide Grow, Cost;
  }

  /** Leaving out items at the front never needs more groups. */
  lemma {:induction false} SuffixNeedsNoMore<T>(items: seq<T>, cost: T -> nat, cap: nat, k: nat)
    requires k <= |items|
    ensures |Greedy(items[k..], cost, cap)| <= |Greedy(items, cost, cap)|
    decreases |items|
  {
    if items != [] && k < |items| {
      hide *;
      var n := Grow(items, cost, cap, 1);
      OneGroupMore(items, cost, cap);
      if n <= k {
        assert items[n..][k - n..] == items[k..];
        SuffixNeedsNoMore(items[n..], cost, cap, k - n);
      } else {
        var rest := items[k..];
        var m := Grow(rest, cost, cap, 1);
        SuffixGrowsAsFar(items, cost, cap, k, n, m);
        OneGroupMore(rest, cost, cap);
        assert items[n..][k + m - n..] == rest[m..];
        SuffixNeedsNoMore(items[n..], cost, cap, k + m - n);
      }
    }
  }

  /** The greedy division is the smallest one that respects the cap. */
  lemma {:induction false} GreedyIsOptimal<T>(items: seq<T>, cost: T -> nat, cap: nat, other: seq<seq<T>>)
    requires IsPacking(other, items, cost, cap)
    ensures |Greedy(items, cost, cap)| <= |other|
    decreases |other|
  {
    hide Cost;
    if other != [] {
      var first := other[0];
      var p := |first|;
      assert Fits(first, cost, cap);
      assert items[..p] == first && items[p..] == Concat(other[1..]);
      GreedyIsOptimal(items[p..], cost, cap, other[1..]);
      var n := Grow(items, cost, cap, 1);
      GrowIsLongest(items, cost, cap, 1, p);
      assert items[p..][n - p..] == items[n..];
      SuffixNeedsNoMore(items[p..], cost, cap, n - p);
    }
  }

  /** Two neighbouring groups together always exceed the cap. */
  lemma {:induction false} GreedyCount<T>(items: seq<T>, cost: T -> nat, cap: nat)
    ensures |Greedy(items, cost, cap)| / 2 * (cap + 1) <= Cost(items, cost)
    decreases |items|
  {
    hide Cost, Grow;
    if items != [] {
      var n := Grow(items, cost, cap, 1);
      var rest := items[n..];
      if rest != [] {
        var m := Grow(rest, cost, cap, 1);
        GreedyCount(rest[m..], cost, cap);
        TwoGroupsOverflow(items, cost, cap, n, n + m);
        assert items[n + m..] == rest[m..];
        OneMorePair(|Greedy(rest[m..], cost, cap)|, cap + 1);
        assert |Greedy(items, cost, cap)| == |Greedy(rest[m..], cost, cap)| + 2;
      }
    }
  }

  lemma OneMorePair(k: nat, d: nat)
    ensures (k + 2) / 2 * d == k / 2 * d + d
  {
    assert (k + 2) / 2 == k / 2 + 1;
  }

  lemma TwoGroupsOverflow<T>(items: seq<T>, cost: T -> nat, cap: nat, n: nat, end: nat)
    requires items != [] && n == Grow(items, cost, cap, 1) && n < end <= |items|
    ensures Cost(items[end..], cost) + cap + 1 <= Cost(items, cost)
  {
    GrowOverflows(items, cost, cap, 1);
    assert items[..end] == items[..n + 1] + items[n + 1..end];
    CostAppend(items[..n + 1], items[n + 1..end], cost);
    assert items == items[..end] + items[end..];
    CostAppend(items[..end], items[end..], cost);
  }

  lemma {:induction false} GrowOverflows<T>(items: seq<T>, cost: T -> nat, cap: nat, n: nat)
    requires n <= |items|
    ensures var m := Grow(items, cost, cap, n); m < |items| ==> Cost(items[..m + 1], cost) > cap
    decreases |items| - n
  {
    if n < |items| {
      assert items[..n + 1][..n] == items[..n];
      if Cost(items[..n], cost) + cost(items[n]) <= cap {
        GrowOverflows(items, cost, cap, n + 1);
      }
    }
  }

  lemma GreedyCountBound<T>(items: seq<T>, cost: T -> nat, cap: nat)
    ensures |Greedy(items, cost, cap)| <= 2 * (Cost(items, cost) / (cap + 1)) + 1
  {
    GreedyCount(items, cost, cap);
    DivisionBound(|Greedy(items, cost, cap)| / 2, cap + 1, Cost(items, cost));
  }

  lemma DivisionBound(q: nat, d: nat, total: nat)
    requires d > 0 && q * d <= total
    ensures q <= total / d
  {
    if q > total / d {
      MultiplyMonotone(total / d + 1, q, d);
    }
  }

  lemma MultiplyMonotone(a: nat, b: nat, d: nat)
    requires a <= b
    ensures a * d <= b * d
  {
  }
}
