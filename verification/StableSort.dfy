/** A stable sort by descending key, which is what Python's `sorted(..., reverse=True)` computes. */
module StableSort {
  import opened Sequences

  function Insert<T>(x: T, sorted: seq<T>, key: T -> real): seq<T> {
    if sorted == [] || key(x) >= key(sorted[0]) then [x] + sorted
    else [sorted[0]] + Insert(x, sorted[1..], key)
  }

  function Sort<T>(s: seq<T>, key: T -> real): seq<T> {
    if s == [] then [] else Insert(s[0], Sort(s[1..], key), key)
  }

  /** Where x first occurs. */
  function IndexOf<T(==)>(s: seq<T>, x: T): (i: nat)
    requires x in s
    ensures i < |s| && s[i] == x && x !in s[..i]
  {
    if s[0] == x then 0
    else
      var i := IndexOf(s[1..], x);
      assert s[..i + 1] == [s[0]] + s[1..][..i];
      i + 1
  }

  lemma {:induction false} IndexIsFirst<T>(s: seq<T>, x: T, i: nat)
    requires i < |s| && s[i] == x && x !in s[..i]
    ensures IndexOf(s, x) == i
  {
    if i > 0 {
      assert s[0] == s[..i][0];
      assert s[1..][..i - 1] == s[..i][1..];
      IndexIsFirst(s[1..], x, i - 1);
    }
  }

  lemma IndexInPrefix<T>(s: seq<T>, t: seq<T>, x: T)
    requires x in s
    ensures IndexOf(s + t, x) == IndexOf(s, x)
  {
    var i := IndexOf(s, x);
    assert (s + t)[..i] == s[..i];
    IndexIsFirst(s + t, x, i);
  }

  lemma IndexInDistinct<T>(s: seq<T>, i: nat)
    requires Distinct(s) && i < |s|
    ensures IndexOf(s, s[i]) == i
  {
    IndexIsFirst(s, s[i], i);
  }

  /** x comes before y: a higher key, or the same key and an earlier place in s. */
  predicate Precedes<T(==)>(s: seq<T>, key: T -> real, x: T, y: T)
    requires x in s && y in s
  {
    key(x) > key(y) || (key(x) == key(y) && IndexOf(s, x) < IndexOf(s, y))
  }

  /** r lists the elements of s once each, in the order of `Precedes`. */
  ghost predicate IsRanking<T>(r: seq<T>, s: seq<T>, key: T -> real) {
    && Distinct(r)
    && |r| == |s|
    && (forall x :: x in r ==> x in s)
    && (forall x :: x in s ==> x in r)
    && (forall i, j :: 0 <= i < j < |r| ==> Precedes(s, key, r[i], r[j]))
  }

  /** Places in a ranking are ordered as the keys, and then the places in s, are. */
  lemma RankedBefore<T>(r: seq<T>, s: seq<T>, key: T -> real, x: T, y: T)
    requires IsRanking(r, s, key) && x in s && y in s && x != y
    ensures x in r && y in r && (IndexOf(r, x) < IndexOf(r, y) <==> Precedes(s, key, x, y))
  {
    var i, j := IndexOf(r, x), IndexOf(r, y);
    if i < j {
      assert Precedes(s, key, r[i], r[j]);
    } else {
      assert Precedes(s, key, r[j], r[i]);
    }
  }

  lemma {:induction false} InsertElements<T>(x: T, sorted: seq<T>, key: T -> real)
    ensures multiset(Insert(x, sorted, key)) == multiset{x} + multiset(sorted)
  {
    if sorted == [] || key(x) >= key(sorted[0]) {
    } else {
      InsertElements(x, sorted[1..], key);
      assert sorted == [sorted[0]] + sorted[1..];
    }
  }

  lemma {:induction false} SortElements<T>(s: seq<T>, key: T -> real)
    ensures multiset(Sort(s, key)) == multiset(s) && |Sort(s, key)| == |s|
  {
    if s != [] {
      SortElements(s[1..], key);
      InsertElements(s[0], Sort(s[1..], key), key);
      assert s == [s[0]] + s[1..];
      assert |multiset(Sort(s, key))| == |multiset(s)|;
    }
  }

  lemma SortMembers<T>(s: seq<T>, key: T -> real)
    ensures forall x :: x in Sort(s, key) ==> x in s
    ensures forall x :: x in s ==> x in Sort(s, key)
  {
    SortElements(s, key);
    forall x | x in Sort(s, key) ensures x in s {
      assert x in multiset(Sort(s, key));
    }
    forall x | x in s ensures x in Sort(s, key) {
      assert x in multiset(s);
    }
  }

  /** Sorting a list without repeats gives a ranking of it. */
  lemma {:induction false} SortIsRanking<T>(s: seq<T>, key: T -> real)
    requires Distinct(s)
    ensures IsRanking(Sort(s, key), s, key)
  {
    SortElements(s, key);
    SortMembers(s, key);
    if s != [] {
      var x, tail := s[0], s[1..];
      assert x !in tail;
      SortIsRanking(tail, key);
      InsertRanks(x, tail, Sort(tail, key), key);
    }
  }

  lemma IndexInTail<T>(x: T, tail: seq<T>, y: T)
    requires x !in tail && y in tail
    ensures IndexOf([x] + tail, y) == IndexOf(tail, y) + 1
  {
    assert ([x] + tail)[1..] == tail;
  }

  /** `sorted` ranks part of `tail`; inserting x, which comes before `tail`, ranks it too. */
  lemma {:induction false} InsertRanks<T>(x: T, tail: seq<T>, sorted: seq<T>, key: T -> real)
    requires x !in tail && Distinct(sorted)
    requires forall y :: y in sorted ==> y in tail
    requires forall i, j :: 0 <= i < j < |sorted| ==> Precedes(tail, key, sorted[i], sorted[j])
    ensures var r, s := Insert(x, sorted, key), [x] + tail;
            && Distinct(r)
            && (forall y :: y in r ==> y == x || y in sorted)
            && (forall y :: y in r ==> y in s)
            && (forall i, j :: 0 <= i < j < |r| ==> Precedes(s, key, r[i], r[j]))
    decreases |sorted|
  {
    var s := [x] + tail;
    forall y | y in tail
      ensures IndexOf(s, y) == IndexOf(tail, y) + 1
    {
      IndexInTail(x, tail, y);
    }
    assert IndexOf(s, x) == 0;
    if sorted == [] {
    } else if key(x) >= key(sorted[0]) {
      var r := [x] + sorted;
      forall i, j | 0 <= i < j < |r|
        ensures r[i] != r[j] && Precedes(s, key, r[i], r[j])
      {
        if i == 0 {
          assert r[j] == sorted[j - 1];
          assert j == 1 || Precedes(tail, key, sorted[0], sorted[j - 1]);
        } else {
          assert r[i] == sorted[i - 1] && r[j] == sorted[j - 1];
        }
      }
    } else {
      var rest := sorted[1..];
      forall i, j | 0 <= i < j < |rest|
        ensures Precedes(tail, key, rest[i], rest[j])
      {
        assert rest[i] == sorted[i + 1] && rest[j] == sorted[j + 1];
      }
      InsertRanks(x, tail, rest, key);
      var r' := Insert(x, rest, key);
      var r := [sorted[0]] + r';
      forall j | 0 < j < |r|
        ensures r[0] != r[j] && Precedes(s, key, r[0], r[j])
      {
        assert r[j] == r'[j - 1] && r[j] in r';
        if r[j] != x {
          var m :| 0 <= m < |rest| && rest[m] == r[j];
          assert rest[m] == sorted[m + 1];
          assert Precedes(tail, key, sorted[0], sorted[m + 1]);
        }
      }
      forall i, j | 0 <= i < j < |r|
        ensures r[i] != r[j] && Precedes(s, key, r[i], r[j])
      {
        if i > 0 {
          assert r[i] == r'[i - 1] && r[j] == r'[j - 1];
        }
      }
    }
  }

  /** The elements that come before x. */
  ghost function Predecessors<T>(s: seq<T>, key: T -> real, x: T): set<T>
    requires x in s
  {
    set y | y in s && Precedes(s, key, y, x)
  }

  /** A place in a ranking is the number of elements that come before. */
  lemma PlaceInRanking<T>(r: seq<T>, s: seq<T>, key: T -> real, i: nat)
    requires IsRanking(r, s, key) && i < |r|
    ensures r[i] in s
    ensures Predecessors(s, key, r[i]) == Elements(r[..i])
    ensures |Predecessors(s, key, r[i])| == i
  {
    forall y
      ensures y in Predecessors(s, key, r[i]) <==> y in Elements(r[..i])
    {
      if y in s {
        var j :| 0 <= j < |r| && r[j] == y;
        if j < i {
          assert r[..i][j] == y;
        } else if j > i {
          assert Precedes(s, key, r[i], r[j]);
        }
      }
    }
    DistinctCardinality(r[..i]);
  }

  /** A list without repeats has exactly one ranking. */
  lemma RankingIsUnique<T>(r1: seq<T>, r2: seq<T>, s: seq<T>, key: T -> real)
    requires IsRanking(r1, s, key) && IsRanking(r2, s, key)
    ensures r1 == r2
  {
    forall i | 0 <= i < |r1|
      ensures r1[i] == r2[i]
    {
      assert r1[i] in s && r1[i] in r2;
      var j :| 0 <= j < |r2| && r2[j] == r1[i];
      PlaceInRanking(r1, s, key, i);
      PlaceInRanking(r2, s, key, j);
    }
  }

  lemma {:induction false} SortCongruence<T>(s: seq<T>, key1: T -> real, key2: T -> real)
    requires forall x :: x in s ==> key1(x) == key2(x)
    ensures Sort(s, key1) == Sort(s, key2)
  {
    if s != [] {
      SortCongruence(s[1..], key1, key2);
      SortMembers(s[1..], key1);
      forall y | y in Sort(s[1..], key1)
        ensures key1(y) == key2(y)
      {
        assert y in s[1..];
      }
      InsertCongruence(s[0], Sort(s[1..], key1), key1, key2);
    }
  }

  lemma {:induction false} InsertCongruence<T>(x: T, sorted: seq<T>, key1: T -> real, key2: T -> real)
    requires key1(x) == key2(x)
    requires forall y :: y in sorted ==> key1(y) == key2(y)
    ensures Insert(x, sorted, key1) == Insert(x, sorted, key2)
  {
    if sorted != [] {
      assert key1(sorted[0]) == key2(sorted[0]);
      InsertCongruence(x, sorted[1..], key1, key2);
    }
  }

  /** Sorting records by a key is sorting their images by the same key. */
  lemma {:induction false} SortMapped<T, U>(s: seq<T>, f: T -> U, key: T -> real, image: U -> real)
    requires forall x :: x in s ==> key(x) == image(f(x))
    ensures Sort(Map(f, s), image) == Map(f, Sort(s, key))
  {
    if s != [] {
      assert Map(f, s)[1..] == Map(f, s[1..]);
      SortMapped(s[1..], f, key, image);
      SortMembers(s[1..], key);
      forall x | x in Sort(s[1..], key) ensures key(x) == image(f(x)) {
        assert x in s[1..];
      }
      InsertMapped(s[0], Sort(s[1..], key), f, key, image);
    }
  }

  lemma {:induction false} InsertMapped<T, U>(x: T, sorted: seq<T>, f: T -> U, key: T -> real, image: U -> real)
    requires key(x) == image(f(x))
    requires forall y :: y in sorted ==> key(y) == image(f(y))
    ensures Insert(f(x), Map(f, sorted), image) == Map(f, Insert(x, sorted, key))
  {
    if sorted == [] || key(x) >= key(sorted[0]) {
      assert Map(f, [x] + sorted) == [f(x)] + Map(f, sorted);
    } else {
      assert Map(f, sorted)[1..] == Map(f, sorted[1..]);
      InsertMapped(x, sorted[1..], f, key, image);
      assert Map(f, [sorted[0]] + Insert(x, sorted[1..], key)) == [f(sorted[0])] + Map(f, Insert(x, sorted[1..], key));
    }
  }
}
