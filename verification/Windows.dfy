/**
 * The sliding window over sentences: a window is filled up to a budget, and the next one starts
 * with the longest tail of it that stays within the overlap budget.
 */
module Windows {
  import opened Packing

  /** The items [start, end); those before `first` repeat the end of the previous window. */
  datatype Window = Window(start: nat, first: nat, end: nat)

  function Span<T>(items: seq<T>, cost: T -> nat, a: nat, b: nat): nat
    requires a <= b <= |items|
  {
    Cost(items[a..b], cost)
  }

  /** Where the longest suffix of `window` within the overlap budget begins, given that the one at k is. */
  function SuffixStart<T>(window: seq<T>, cost: T -> nat, overlap: nat, k: nat): (m: nat)
    requires k <= |window|
    ensures m <= k
  {
    if k > 0 && Cost(window[k - 1..], cost) <= overlap then SuffixStart(window, cost, overlap, k - 1) else k
  }

  function FirstWindow<T>(items: seq<T>, cost: T -> nat, budget: nat, start: nat, first: nat): (w: Window)
    requires start <= first < |items|
    ensures w.start == start && w.first == first && first < w.end <= |items|
  {
    Window(start, first, start + Grow(items[start..], cost, budget, first + 1 - start))
  }

  function NextStart<T>(items: seq<T>, cost: T -> nat, overlap: nat, start: nat, end: nat): (m: nat)
    requires start <= end <= |items|
    ensures start <= m <= end
  {
    start + SuffixStart(items[start..end], cost, overlap, end - start)
  }

  function WindowsFrom<T>(items: seq<T>, cost: T -> nat, budget: nat, overlap: nat, start: nat, first: nat): seq<Window>
    requires start <= first <= |items|
    decreases |items| - first
  {
    if first == |items| then []
    else
      var w := FirstWindow(items, cost, budget, start, first);
      [w] + WindowsFrom(items, cost, budget, overlap, NextStart(items, cost, overlap, start, w.end), w.end)
  }

  function AllWindows<T>(items: seq<T>, cost: T -> nat, budget: nat, overlap: nat): seq<Window> {
    WindowsFrom(items, cost, budget, overlap, 0, 0)
  }

  // ---------------------------------------------- what makes the windows right

  /** The window takes its first first item, then every item that fits, and stops at one that does not. */
  ghost predicate Filled<T>(items: seq<T>, cost: T -> nat, budget: nat, w: Window) {
    && w.start <= w.first < w.end <= |items|
    && (forall j :: w.first < j < w.end ==> Span(items, cost, w.start, j) + cost(items[j]) <= budget)
    && (w.end < |items| ==> Span(items, cost, w.start, w.end) + cost(items[w.end]) > budget)
  }

  /** w starts with the longest suffix of v that is within the overlap budget, and goes on where v ended. */
  ghost predicate Follows<T>(items: seq<T>, cost: T -> nat, overlap: nat, v: Window, w: Window) {
    && w.first == v.end
    && v.start <= w.start <= v.end <= |items|
    && Span(items, cost, w.start, v.end) <= overlap
    && (v.start < w.start ==> Span(items, cost, w.start - 1, v.end) > overlap)
  }

  ghost predicate IsWindowing<T>(ws: seq<Window>, items: seq<T>, cost: T -> nat, budget: nat, overlap: nat) {
    && (items == [] <==> ws == [])
    && (ws != [] ==> ws[0].start == ws[0].first == 0 && ws[|ws| - 1].end == |items|)
    && (forall k :: 0 <= k < |ws| ==> Filled(items, cost, budget, ws[k]))
    && (forall k :: 0 < k < |ws| ==> Follows(items, cost, overlap, ws[k - 1], ws[k]))
  }

  lemma {:induction false} GrowFills<T>(items: seq<T>, cost: T -> nat, cap: nat, n: nat, j: nat)
    requires n <= |items| && n <= j < Grow(items, cost, cap, n)
    ensures Cost(items[..j], cost) + cost(items[j]) <= cap
    decreases j - n
  {
    if j > n {
      GrowFills(items, cost, cap, n + 1, j);
    }
  }

  lemma {:induction false} GrowStops<T>(items: seq<T>, cost: T -> nat, cap: nat, n: nat)
    requires n <= |items|
    ensures var m := Grow(items, cost, cap, n); m < |items| ==> Cost(items[..m], cost) + cost(items[m]) > cap
    decreases |items| - n
  {
    if n < |items| && Cost(items[..n], cost) + cost(items[n]) <= cap {
      GrowStops(items, cost, cap, n + 1);
    }
  }

  lemma FirstWindowFilled<T>(items: seq<T>, cost: T -> nat, budget: nat, start: nat, first: nat)
    requires start <= first < |items|
    ensures Filled(items, cost, budget, FirstWindow(items, cost, budget, start, first))
  {
    hide Cost, Grow, FirstWindow;
    var w := FirstWindow(items, cost, budget, start, first);
    forall j | first < j < w.end
      ensures Span(items, cost, start, j) + cost(items[j]) <= budget
    {
      FirstWindowAt(items, cost, budget, start, first, j);
    }
    if w.end < |items| {
      FirstWindowAt(items, cost, budget, start, first, w.end);
    }
  }

  lemma FirstWindowAt<T>(items: seq<T>, cost: T -> nat, budget: nat, start: nat, first: nat, j: nat)
    requires start <= first < j < |items|
    ensures var end := FirstWindow(items, cost, budget, start, first).end;
            && (j < end ==> Span(items, cost, start, j) + cost(items[j]) <= budget)
            && (j == end ==> Span(items, cost, start, j) + cost(items[j]) > budget)
  {
    hide Cost;
    var rest, n := items[start..], first + 1 - start;
    assert rest[..j - start] == items[start..j];
    if j - start < Grow(rest, cost, budget, n) {
      GrowFills(rest, cost, budget, n, j - start);
    } else if j - start == Grow(rest, cost, budget, n) {
      GrowStops(rest, cost, budget, n);
    }
  }

  lemma {:induction false} SuffixIsLongest<T>(window: seq<T>, cost: T -> nat, overlap: nat, k: nat)
    requires k <= |window| && Cost(window[k..], cost) <= overlap
    ensures var m := SuffixStart(window, cost, overlap, k);
            Cost(window[m..], cost) <= overlap && (m > 0 ==> Cost(window[m - 1..], cost) > overlap)
  {
    if k > 0 && Cost(window[k - 1..], cost) <= overlap {
      SuffixIsLongest(window, cost, overlap, k - 1);
    }
  }

  lemma NextFollows<T>(items: seq<T>, cost: T -> nat, overlap: nat, v: Window, w: Window)
    requires v.start <= v.end <= |items|
    requires w.first == v.end && w.start == NextStart(items, cost, overlap, v.start, v.end)
    ensures Follows(items, cost, overlap, v, w)
  {
    var window := items[v.start..v.end];
    assert window[|window|..] == [];
    SuffixIsLongest(window, cost, overlap, |window|);
    var m := SuffixStart(window, cost, overlap, |window|);
    assert window[m..] == items[w.start..v.end];
    assert m > 0 ==> window[m - 1..] == items[w.start - 1..v.end];
  }

  lemma {:induction false} WindowsFromIsWindowing<T>(
    items: seq<T>, cost: T -> nat, budget: nat, overlap: nat, start: nat, first: nat)
    requires start <= first <= |items|
    ensures
      var ws := WindowsFrom(items, cost, budget, overlap, start, first);
      && (ws == [] <==> first == |items|)
      && (ws != [] ==> ws[0].start == start && ws[0].first == first && ws[|ws| - 1].end == |items|)
      && (forall k :: 0 <= k < |ws| ==> Filled(items, cost, budget, ws[k]))
      && (forall k :: 0 < k < |ws| ==> Follows(items, cost, overlap, ws[k - 1], ws[k]))
    decreases |items| - first
  {
    hide Filled, Follows, FirstWindow, NextStart;
    if first < |items| {
      var w := FirstWindow(items, cost, budget, start, first);
      var next := NextStart(items, cost, overlap, start, w.end);
      FirstWindowFilled(items, cost, budget, start, first);
      WindowsFromIsWindowing(items, cost, budget, overlap, next, w.end);
      var rest := WindowsFrom(items, cost, budget, overlap, next, w.end);
      if rest != [] {
        NextFollows(items, cost, overlap, w, rest[0]);
      }
      assert forall k :: 0 < k < |rest| ==> ([w] + rest)[k] == rest[k - 1];
    }
  }

  lemma WindowsAreWindowing<T>(items: seq<T>, cost: T -> nat, budget: nat, overlap: nat)
    ensures IsWindowing(AllWindows(items, cost, budget, overlap), items, cost, budget, overlap)
  {
    WindowsFromIsWindowing(items, cost, budget, overlap, 0, 0);
  }

  lemma SpanSplit<T>(items: seq<T>, cost: T -> nat, a: nat, b: nat, c: nat)
    requires a <= b <= c <= |items|
    ensures Span(items, cost, a, c) == Span(items, cost, a, b) + Span(items, cost, b, c)
  {
    assert items[a..c] == items[a..b] + items[b..c];
    CostAppend(items[a..b], items[b..c], cost);
  }

  lemma SpanOfOne<T>(items: seq<T>, cost: T -> nat, i: nat)
    requires i < |items|
    ensures Span(items, cost, i, i + 1) == cost(items[i])
    ensures Span(items, cost, i, i) == 0
  {
    assert items[i..i + 1] == [items[i]];
    var one := [items[i]];
    assert one[..|one| - 1] == [] && Cost(one, cost) == Cost(one[..|one| - 1], cost) + cost(one[0]);
  }

  /** Two filled windows that start alike end alike. */
  lemma FilledEndsOnce<T>(items: seq<T>, cost: T -> nat, budget: nat, v: Window, w: Window)
    requires Filled(items, cost, budget, v) && Filled(items, cost, budget, w)
    requires v.start == w.start && v.first == w.first
    ensures v == w
  {
  }

  lemma FollowsOnce<T>(items: seq<T>, cost: T -> nat, overlap: nat, v: Window, w: Window, w': Window)
    requires Follows(items, cost, overlap, v, w) && Follows(items, cost, overlap, v, w')
    ensures w.start == w'.start && w.first == w'.first
  {
    if w.start < w'.start {
      SpanSplit(items, cost, w.start, w'.start - 1, v.end);
    } else if w'.start < w.start {
      SpanSplit(items, cost, w'.start, w.start - 1, v.end);
    }
  }

  lemma {:induction false} SameWindowAt<T>(
    items: seq<T>, cost: T -> nat, budget: nat, overlap: nat, v: seq<Window>, w: seq<Window>, k: nat)
    requires IsWindowing(v, items, cost, budget, overlap) && IsWindowing(w, items, cost, budget, overlap)
    requires k < |v| && k < |w|
    ensures v[k] == w[k]
  {
    hide Filled, Follows;
    if k > 0 {
      SameWindowAt(items, cost, budget, overlap, v, w, k - 1);
      FollowsOnce(items, cost, overlap, v[k - 1], v[k], w[k]);
    }
    FilledEndsOnce(items, cost, budget, v[k], w[k]);
  }

  lemma EndsGrow<T>(items: seq<T>, cost: T -> nat, budget: nat, overlap: nat, ws: seq<Window>, k: nat)
    requires IsWindowing(ws, items, cost, budget, overlap) && k < |ws| - 1
    ensures ws[k].end < |items|
  {
    assert Follows(items, cost, overlap, ws[k], ws[k + 1]) && Filled(items, cost, budget, ws[k + 1]);
  }

  /** The rule leaves no choice: a list of items has exactly one windowing. */
  lemma WindowingIsUnique<T>(
    items: seq<T>, cost: T -> nat, budget: nat, overlap: nat, v: seq<Window>, w: seq<Window>)
    requires IsWindowing(v, items, cost, budget, overlap) && IsWindowing(w, items, cost, budget, overlap)
    ensures v == w
  {
    hide Filled, Follows;
    forall k | 0 <= k < |v| && k < |w| ensures v[k] == w[k] {
      SameWindowAt(items, cost, budget, overlap, v, w, k);
    }
    if |v| < |w| {
      EndsGrow(items, cost, budget, overlap, w, |v| - 1);
    } else if |w| < |v| {
      EndsGrow(items, cost, budget, overlap, v, |w| - 1);
    }
  }

  // ---------------------------------------------- conservation and cost

  function FreshItems<T>(items: seq<T>, ws: seq<Window>): seq<T>
    requires forall k :: 0 <= k < |ws| ==> ws[k].first <= ws[k].end <= |items|
  {
    if ws == [] then []
    else
      var w := ws[|ws| - 1];
      FreshItems(items, ws[..|ws| - 1]) + items[w.first..w.end]
  }

  /** The windows before k end where window k brings its first new item. */
  lemma Seam<T>(items: seq<T>, cost: T -> nat, budget: nat, overlap: nat, ws: seq<Window>, k: nat)
    requires IsWindowing(ws, items, cost, budget, overlap) && k < |ws|
    ensures ws[k].start <= ws[k].first < ws[k].end <= |items|
    ensures ws[k].first == if k == 0 then 0 else ws[k - 1].end
    ensures Span(items, cost, ws[k].start, ws[k].first) <= overlap
    ensures k == 0 ==> ws[k].start == 0
  {
    assert Filled(items, cost, budget, ws[k]);
    if k > 0 {
      assert Follows(items, cost, overlap, ws[k - 1], ws[k]);
    } else {
      assert items[0..0] == [];
    }
  }

  /** Dropping the repeats gives back the items, each once and in order. */
  lemma {:induction false} FreshItemsAreItems<T>(
    items: seq<T>, cost: T -> nat, budget: nat, overlap: nat, ws: seq<Window>, k: nat)
    requires IsWindowing(ws, items, cost, budget, overlap) && k <= |ws|
    requires forall k :: 0 <= k < |ws| ==> ws[k].first <= ws[k].end <= |items|
    ensures FreshItems(items, ws[..k]) == items[..if k == 0 then 0 else ws[k - 1].end]
  {
    hide IsWindowing;
    if k > 0 {
      FreshItemsAreItems(items, cost, budget, overlap, ws, k - 1);
      assert ws[..k][..k - 1] == ws[..k - 1];
      Seam(items, cost, budget, overlap, ws, k - 1);
      assert items[..ws[k - 1].end] == items[..ws[k - 1].first] + items[ws[k - 1].first..ws[k - 1].end];
    }
  }

  /** A window costs at most the budget, or else at most the overlap and its one fresh item. */
  lemma WindowCostBound<T>(items: seq<T>, cost: T -> nat, budget: nat, overlap: nat, ws: seq<Window>, k: nat)
    requires IsWindowing(ws, items, cost, budget, overlap) && k < |ws|
    ensures ws[k].start < ws[k].end <= |items|
    ensures var w, last := ws[k], items[ws[k].end - 1];
            Span(items, cost, w.start, w.end) <= if budget >= overlap + cost(last) then budget else overlap + cost(last)
  {
    hide Span;
    var w := ws[k];
    assert Filled(items, cost, budget, w);
    Seam(items, cost, budget, overlap, ws, k);
    SpanSplit(items, cost, w.start, w.end - 1, w.end);
    SpanOfOne(items, cost, w.end - 1);
    assert w.end - 1 > w.first ==> Span(items, cost, w.start, w.end - 1) + cost(items[w.end - 1]) <= budget;
  }

  /** Two windows in a row bring at least `budget - overlap + 1` of fresh cost. */
  lemma {:induction false} PairsOfWindows<T>(
    items: seq<T>, cost: T -> nat, budget: nat, overlap: nat, start: nat, first: nat)
    requires overlap <= budget && start <= first <= |items| && Span(items, cost, start, first) <= overlap
    ensures |WindowsFrom(items, cost, budget, overlap, start, first)| / 2 * (budget - overlap + 1)
            <= Span(items, cost, first, |items|)
    decreases |items| - first
  {
    hide Span, FirstWindow, NextStart;
    if first < |items| {
      var v := FirstWindow(items, cost, budget, start, first);
      var start' := NextStart(items, cost, overlap, start, v.end);
      if v.end < |items| {
        var w := FirstWindow(items, cost, budget, start', v.end);
        var start'' := NextStart(items, cost, overlap, start', w.end);
        NextWithinOverlap(items, cost, overlap, start', w.end);
        PairsOfWindows(items, cost, budget, overlap, start'', w.end);
        PairCost(items, cost, budget, overlap, start, first, w.end);
        var rest := WindowsFrom(items, cost, budget, overlap, start'', w.end);
        assert |WindowsFrom(items, cost, budget, overlap, start, first)| == |rest| + 2;
        OneMorePair(|rest|, budget - overlap + 1);
      }
    }
  }

  lemma NextWithinOverlap<T>(items: seq<T>, cost: T -> nat, overlap: nat, start: nat, end: nat)
    requires start <= end <= |items|
    ensures Span(items, cost, NextStart(items, cost, overlap, start, end), end) <= overlap
  {
    NextFollows(items, cost, overlap, Window(start, start, end), Window(NextStart(items, cost, overlap, start, end), end, end));
  }

  lemma PairCost<T>(items: seq<T>, cost: T -> nat, budget: nat, overlap: nat, start: nat, first: nat, end: nat)
    requires overlap <= budget && start <= first < |items| && Span(items, cost, start, first) <= overlap
    requires FirstWindow(items, cost, budget, start, first).end < end <= |items|
    ensures Span(items, cost, first, |items|) >= budget - overlap + 1 + Span(items, cost, end, |items|)
  {
    hide Span, FirstWindow;
    var v := FirstWindow(items, cost, budget, start, first);
    FirstWindowFilled(items, cost, budget, start, first);
    SpanSplit(items, cost, start, first, v.end);
    SpanSplit(items, cost, first, v.end, end);
    SpanSplit(items, cost, v.end, v.end + 1, end);
    SpanOfOne(items, cost, v.end);
    SpanSplit(items, cost, first, end, |items|);
  }

  /** How often the loop flushes: once for every window but the last. */
  lemma FlushBound<T>(items: seq<T>, cost: T -> nat, budget: nat, overlap: nat)
    requires overlap <= budget
    ensures |AllWindows(items, cost, budget, overlap)| - 1 <= 2 * (Cost(items, cost) / (budget - overlap + 1))
  {
    assert items[0..0] == [] && items[0..|items|] == items;
    PairsOfWindows(items, cost, budget, overlap, 0, 0);
    DivisionBound(|AllWindows(items, cost, budget, overlap)| / 2, budget - overlap + 1, Cost(items, cost));
  }

  /** What all windows cost together. */
  function StoredCost<T>(items: seq<T>, cost: T -> nat, ws: seq<Window>): nat
    requires forall k :: 0 <= k < |ws| ==> ws[k].start <= ws[k].end <= |items|
  {
    if ws == [] then 0
    else StoredCost(items, cost, ws[..|ws| - 1]) + Span(items, cost, ws[|ws| - 1].start, ws[|ws| - 1].end)
  }

  /** Repeats add at most the overlap budget per flush. */
  lemma {:induction false} StoredCostBound<T>(
    items: seq<T>, cost: T -> nat, budget: nat, overlap: nat, ws: seq<Window>, k: nat)
    requires IsWindowing(ws, items, cost, budget, overlap) && 0 < k <= |ws|
    requires forall k :: 0 <= k < |ws| ==> ws[k].start <= ws[k].end <= |items|
    ensures StoredCost(items, cost, ws[..k]) <= Span(items, cost, 0, ws[k - 1].end) + overlap * (k - 1)
  {
    hide Span, IsWindowing;
    var w := ws[k - 1];
    assert ws[..k][..k - 1] == ws[..k - 1];
    Seam(items, cost, budget, overlap, ws, k - 1);
    SpanSplit(items, cost, w.start, w.first, w.end);
    SpanSplit(items, cost, 0, w.first, w.end);
    if k > 1 {
      StoredCostBound(items, cost, budget, overlap, ws, k - 1);
      assert overlap * (k - 1) == overlap * (k - 2) + overlap;
    } else {
      assert StoredCost(items, cost, ws[..0]) == 0;
    }
  }
}
