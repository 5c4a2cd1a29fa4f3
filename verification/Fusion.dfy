/** Reciprocal rank fusion of several result lists. */
module Fusion {
  import opened Sequences
  import opened StableSort
  import opened SearchResults

  function Weight(k: nat, rank: nat): real {
    1.0 / (k + rank + 1) as real
  }

  /** What one list contributes to an id: one weight for each of its occurrences. */
  function ListScore(ids: seq<ChunkId>, id: ChunkId, k: nat): real {
    if ids == [] then 0.0
    else
      var rank := |ids| - 1;
      ListScore(ids[..rank], id, k) + if ids[rank] == id then Weight(k, rank) else 0.0
  }

  function TotalScore(lists: seq<seq<ChunkId>>, id: ChunkId, k: nat): real {
    if lists == [] then 0.0
    else
      var last := |lists| - 1;
      TotalScore(lists[..last], id, k) + ListScore(lists[last], id, k)
  }

  /** The keys of a dictionary that held `keys` once `ids` are inserted, in insertion order. */
  function Insertions(keys: seq<ChunkId>, ids: seq<ChunkId>): seq<ChunkId> {
    if ids == [] then keys
    else
      var front, id := Insertions(keys, ids[..|ids| - 1]), ids[|ids| - 1];
      if id in front then front else front + [id]
  }

  /** Every id once, in order of first appearance. */
  function FirstSeen(lists: seq<seq<ChunkId>>): seq<ChunkId> {
    if lists == [] then []
    else Insertions(FirstSeen(lists[..|lists| - 1]), lists[|lists| - 1])
  }

  function Ranking(lists: seq<seq<ChunkId>>, k: nat): seq<ChunkId> {
    Sort(FirstSeen(lists), id => TotalScore(lists, id, k))
  }

  // ------------------------------------------------------- what a score is

  /** The sum of 1 / (k + rank + 1) over all ranks from r on at which the id stands. */
  function PlacesFrom(ids: seq<ChunkId>, id: ChunkId, k: nat, r: nat): real
    requires r <= |ids|
    decreases |ids| - r
  {
    if r == |ids| then 0.0
    else (if ids[r] == id then 1.0 / (k + r + 1) as real else 0.0) + PlacesFrom(ids, id, k, r + 1)
  }

  /** The sum over all places (list, rank) that hold the id. */
  function PlacesIn(lists: seq<seq<ChunkId>>, id: ChunkId, k: nat): real {
    if lists == [] then 0.0 else PlacesFrom(lists[0], id, k, 0) + PlacesIn(lists[1..], id, k)
  }

  lemma {:induction false} ListScoreIs(ids: seq<ChunkId>, id: ChunkId, k: nat, r: nat)
    requires r <= |ids|
    ensures ListScore(ids[..r], id, k) + PlacesFrom(ids, id, k, r) == PlacesFrom(ids, id, k, 0)
  {
    if r > 0 {
      ListScoreIs(ids, id, k, r - 1);
      assert ids[..r][..r - 1] == ids[..r - 1];
    }
  }

  lemma {:induction false} PlacesAppend(lists: seq<seq<ChunkId>>, ids: seq<ChunkId>, id: ChunkId, k: nat)
    ensures PlacesIn(lists + [ids], id, k) == PlacesIn(lists, id, k) + PlacesFrom(ids, id, k, 0)
  {
    if lists == [] {
      assert [] + [ids] == [ids] && [ids][1..] == [];
    } else {
      assert (lists + [ids])[1..] == lists[1..] + [ids];
      PlacesAppend(lists[1..], ids, id, k);
    }
  }

  /** The score that the loop adds up is the sum over the places. */
  lemma {:induction false} TotalScoreIs(lists: seq<seq<ChunkId>>, id: ChunkId, k: nat)
    ensures TotalScore(lists, id, k) == PlacesIn(lists, id, k)
  {
    if lists != [] {
      var front, last := lists[..|lists| - 1], lists[|lists| - 1];
      TotalScoreIs(front, id, k);
      ListScoreIs(last, id, k, |last|);
      assert last[..|last|] == last && lists == front + [last];
      PlacesAppend(front, last, id, k);
    }
  }

  // ---------------------------------------------------------------- the loop

  /** The state of the two dictionaries after some results have been tallied. */
  ghost predicate Tallied(
    lists: seq<seq<ChunkId>>, seen: seq<SearchResult>, k: nat,
    keys: seq<ChunkId>, scores: map<ChunkId, real>, first: map<ChunkId, SearchResult>
  ) {
    && keys == FirstSeen(lists)
    && (forall id :: id in keys <==> id in scores)
    && (forall id :: id in keys <==> id in first)
    && (forall id :: id in keys <==> id in Ids(seen))
    && (forall id :: id in keys ==> scores[id] == TotalScore(lists, id, k))
    && (forall id :: id in keys ==> first[id] == seen[IndexOf(Ids(seen), id)])
    && (forall id :: id !in keys ==> TotalScore(lists, id, k) == 0.0)
  }

  /** The same when the results before place (l, rank) have been tallied. */
  ghost predicate TalliedTo(
    lists: seq<seq<SearchResult>>, l: nat, rank: nat, k: nat,
    keys: seq<ChunkId>, scores: map<ChunkId, real>, first: map<ChunkId, SearchResult>
  )
    requires l < |lists| && rank <= |lists[l]|
  {
    Tallied(IdLists(lists)[..l] + [Ids(lists[l])[..rank]], Concat(lists[..l]) + lists[l][..rank], k, keys, scores, first)
  }

  /** Fills the two dictionaries; `keys` is their insertion order, which Python keeps. */
  method Tally(lists: seq<seq<SearchResult>>, k: nat)
    returns (keys: seq<ChunkId>, scores: map<ChunkId, real>, first: map<ChunkId, SearchResult>)
    ensures Tallied(IdLists(lists), Concat(lists), k, keys, scores, first)
    ensures forall id :: id in scores ==> scores[id] == PlacesIn(IdLists(lists), id, k)
  {
    hide Tallied;
    keys, scores, first := [], map[], map[];
    StartTally(k);
    assert IdLists(lists)[..0] == [] && lists[..0] == [];
    for l := 0 to |lists|
      invariant Tallied(IdLists(lists)[..l], Concat(lists[..l]), k, keys, scores, first)
    {
      StartList(lists, l, k, keys, scores, first);
      for rank := 0 to |lists[l]|
        invariant TalliedTo(lists, l, rank, k, keys, scores, first)
      {
        var result := lists[l][rank];
        var key := result.chunkId;
        TallyOne(lists, l, rank, k, keys, scores, first);
        scores := scores[key := (if key in scores then scores[key] else 0.0) + Weight(k, rank)];
        if key !in first {
          first := first[key := result];
          keys := keys + [key];
        }
      }
      EndList(lists, l, k, keys, scores, first);
    }
    assert lists[..|lists|] == lists && IdLists(lists)[..|lists|] == IdLists(lists);
    ScoresArePlaces(lists, k, keys, scores, first);
  }

  lemma ScoresArePlaces(
    lists: seq<seq<SearchResult>>, k: nat,
    keys: seq<ChunkId>, scores: map<ChunkId, real>, first: map<ChunkId, SearchResult>
  )
    requires Tallied(IdLists(lists), Concat(lists), k, keys, scores, first)
    ensures forall id :: id in scores ==> scores[id] == PlacesIn(IdLists(lists), id, k)
  {
    forall id | id in scores ensures scores[id] == PlacesIn(IdLists(lists), id, k) {
      TotalScoreIs(IdLists(lists), id, k);
    }
  }

  /** r is the first record with its id in the concatenated lists. */
  ghost predicate IsFirstOccurrence(lists: seq<seq<SearchResult>>, r: SearchResult) {
    var ids := Ids(Concat(lists));
    r.chunkId in ids && Concat(lists)[IndexOf(ids, r.chunkId)] == r
  }

  lemma StartTally(k: nat)
    ensures Tallied([], [], k, [], map[], map[])
  {
  }

  method Fuse(lists: seq<seq<SearchResult>>, k: nat, topK: nat) returns (merged: seq<SearchResult>)
    modifies Records(lists)
    ensures |merged| == Min(topK, |Ranking(IdLists(lists), k)|)
    ensures Ids(merged) == Ranking(IdLists(lists), k)[..|merged|]
    ensures forall i :: 0 <= i < |merged| ==>
              && merged[i].score == PlacesIn(IdLists(lists), merged[i].chunkId, k)
              && IsFirstOccurrence(lists, merged[i])
    ensures forall r :: r in Records(lists) && r !in merged ==> r.score == old(r.score)
  {
    hide Tallied, IsFirstOccurrence, PlacesIn, TotalScore, Ranking, Sort;
    var keys, scores, first := Tally(lists, k);
    var sortedKeys := Sort(keys, id => if id in scores then scores[id] else 0.0);
    SortsByScore(lists, k, keys, scores, first);
    var n := Min(topK, |sortedKeys|);
    merged := [];
    for i := 0 to n
      invariant |merged| == i
      invariant forall j :: 0 <= j < i ==> merged[j] == first[sortedKeys[j]] && merged[j].score == scores[sortedKeys[j]]
      invariant forall r :: r in Records(lists) && r !in merged ==> r.score == old(r.score)
    {
      var key := sortedKeys[i];
      var result := first[key];
      result.score := scores[key];
      merged := merged + [result];
    }
  }

  /** The sorted keys are the ranking, and the dictionaries hold what belongs to them. */
  lemma SortsByScore(
    lists: seq<seq<SearchResult>>, k: nat,
    keys: seq<ChunkId>, scores: map<ChunkId, real>, first: map<ChunkId, SearchResult>
  )
    requires Tallied(IdLists(lists), Concat(lists), k, keys, scores, first)
    ensures
      var sorted := Sort(keys, id => if id in scores then scores[id] else 0.0);
      && sorted == Ranking(IdLists(lists), k)
      && Distinct(sorted)
      && forall i :: 0 <= i < |sorted| ==>
           && sorted[i] in scores && sorted[i] in first
           && scores[sorted[i]] == TotalScore(IdLists(lists), sorted[i], k)
           && first[sorted[i]] in Records(lists)
           && first[sorted[i]].chunkId == sorted[i]
           && IsFirstOccurrence(lists, first[sorted[i]])
  {
    var ids := IdLists(lists);
    SortCongruence(keys, id => if id in scores then scores[id] else 0.0, id => TotalScore(ids, id, k));
    RankingIsRanking(ids, k);
    var sorted := Ranking(ids, k);
    forall i | 0 <= i < |sorted|
      ensures sorted[i] in keys && first[sorted[i]] in Records(lists)
      ensures first[sorted[i]].chunkId == sorted[i] && IsFirstOccurrence(lists, first[sorted[i]])
    {
      assert sorted[i] in keys;
      IsRecord(lists, first[sorted[i]]);
    }
  }

  lemma IsRecord(lists: seq<seq<SearchResult>>, r: SearchResult)
    requires r in Concat(lists)
    ensures r in Records(lists)
  {
    if r in lists[0] {
      var j :| 0 <= j < |lists[0]| && lists[0][j] == r;
    } else {
      IsRecord(lists[1..], r);
      var i, j :| 0 <= i < |lists[1..]| && 0 <= j < |lists[1..][i]| && lists[1..][i][j] == r;
      assert lists[i + 1][j] == r;
    }
  }

  lemma StartList(
    lists: seq<seq<SearchResult>>, l: nat, k: nat,
    keys: seq<ChunkId>, scores: map<ChunkId, real>, first: map<ChunkId, SearchResult>
  )
    requires l < |lists| && Tallied(IdLists(lists)[..l], Concat(lists[..l]), k, keys, scores, first)
    ensures TalliedTo(lists, l, 0, k, keys, scores, first)
  {
    var done, seen := IdLists(lists)[..l], Concat(lists[..l]);
    assert Ids(lists[l])[..0] == [] && lists[l][..0] == [] && seen + [] == seen;
    assert (done + [[]])[..|done|] == done;
    forall id ensures TotalScore(done + [[]], id, k) == TotalScore(done, id, k) {}
  }

  lemma EndList(
    lists: seq<seq<SearchResult>>, l: nat, k: nat,
    keys: seq<ChunkId>, scores: map<ChunkId, real>, first: map<ChunkId, SearchResult>
  )
    requires l < |lists| && TalliedTo(lists, l, |lists[l]|, k, keys, scores, first)
    ensures Tallied(IdLists(lists)[..l + 1], Concat(lists[..l + 1]), k, keys, scores, first)
  {
    assert lists[l][..|lists[l]|] == lists[l] && Ids(lists[l])[..|lists[l]|] == Ids(lists[l]);
    assert IdLists(lists)[..l + 1] == IdLists(lists)[..l] + [Ids(lists[l])];
    assert lists[..l + 1] == lists[..l] + [lists[l]];
    ConcatAppend(lists[..l], [lists[l]]);
    ConcatOne(lists[l]);
  }

  /** What one more result adds to the score of every id and to the keys. */
  lemma TallyScores(done: seq<seq<ChunkId>>, prefix: seq<ChunkId>, key: ChunkId, k: nat)
    ensures
      var before, after := done + [prefix], done + [prefix + [key]];
      && FirstSeen(after) == (if key in FirstSeen(before) then FirstSeen(before) else FirstSeen(before) + [key])
      && forall id :: TotalScore(after, id, k)
                      == TotalScore(before, id, k) + if id == key then Weight(k, |prefix|) else 0.0
  {
    var before, after := done + [prefix], done + [prefix + [key]];
    assert before[..|done|] == done && after[..|done|] == done;
    assert (prefix + [key])[..|prefix|] == prefix;
  }

  lemma SeenOne(seen: seq<SearchResult>, result: SearchResult)
    ensures Ids(seen + [result]) == Ids(seen) + [result.chunkId]
    ensures forall id :: id in Ids(seen) ==> IndexOf(Ids(seen + [result]), id) == IndexOf(Ids(seen), id)
    ensures result.chunkId !in Ids(seen) ==> IndexOf(Ids(seen + [result]), result.chunkId) == |seen|
  {
    var key := result.chunkId;
    assert Ids(seen + [result]) == Ids(seen) + [key];
    forall id | id in Ids(seen)
      ensures IndexOf(Ids(seen) + [key], id) == IndexOf(Ids(seen), id)
    {
      IndexInPrefix(Ids(seen), [key], id);
    }
    if key !in Ids(seen) {
      assert (Ids(seen) + [key])[..|seen|] == Ids(seen);
      IndexIsFirst(Ids(seen) + [key], key, |seen|);
    }
  }

  lemma TallyOne(
    lists: seq<seq<SearchResult>>, l: nat, rank: nat, k: nat,
    keys: seq<ChunkId>, scores: map<ChunkId, real>, first: map<ChunkId, SearchResult>
  )
    requires l < |lists| && rank < |lists[l]| && TalliedTo(lists, l, rank, k, keys, scores, first)
    ensures
      var result := lists[l][rank];
      var key := result.chunkId;
      var score := (if key in scores then scores[key] else 0.0) + Weight(k, rank);
      TalliedTo(
        lists, l, rank + 1, k,
        if key in first then keys else keys + [key],
        scores[key := score],
        if key in first then first else first[key := result])
  {
    hide Tallied;
    var done, prefix := IdLists(lists)[..l], Ids(lists[l])[..rank];
    var seen, result := Concat(lists[..l]) + lists[l][..rank], lists[l][rank];
    OneMore(Ids(lists[l]), rank);
    OneMore(lists[l], rank);
    assert Concat(lists[..l]) + (lists[l][..rank] + [result]) == seen + [result];
    TallyResult(done, prefix, seen, k, result, keys, scores, first);
  }

  lemma OneMore<T>(s: seq<T>, i: nat)
    requires i < |s|
    ensures s[..i + 1] == s[..i] + [s[i]]
  {
  }

  lemma TallyResult(
    done: seq<seq<ChunkId>>, prefix: seq<ChunkId>, seen: seq<SearchResult>, k: nat, result: SearchResult,
    keys: seq<ChunkId>, scores: map<ChunkId, real>, first: map<ChunkId, SearchResult>
  )
    requires Tallied(done + [prefix], seen, k, keys, scores, first)
    ensures
      var key := result.chunkId;
      var score := (if key in scores then scores[key] else 0.0) + Weight(k, |prefix|);
      Tallied(
        done + [prefix + [key]], seen + [result], k,
        if key in first then keys else keys + [key],
        scores[key := score],
        if key in first then first else first[key := result])
  {
    hide FirstSeen, TotalScore, Weight, IndexOf, Ids;
    TallyScores(done, prefix, result.chunkId, k);
    SeenOne(seen, result);
  }

  // ------------------------------------------- what the ranking means

  lemma {:induction false} InsertionsDistinct(keys: seq<ChunkId>, ids: seq<ChunkId>)
    requires Distinct(keys)
    ensures Distinct(Insertions(keys, ids))
    ensures forall id :: id in Insertions(keys, ids) <==> id in keys || id in ids
  {
    if ids != [] {
      var front := ids[..|ids| - 1];
      InsertionsDistinct(keys, front);
      assert ids == front + [ids[|ids| - 1]];
    }
  }

  lemma {:induction false} FirstSeenDistinct(lists: seq<seq<ChunkId>>)
    ensures Distinct(FirstSeen(lists))
  {
    if lists != [] {
      FirstSeenDistinct(lists[..|lists| - 1]);
      InsertionsDistinct(FirstSeen(lists[..|lists| - 1]), lists[|lists| - 1]);
    }
  }

  lemma {:induction false} FirstSeenMembers(lists: seq<seq<ChunkId>>, id: ChunkId)
    ensures id in FirstSeen(lists) <==> exists l :: 0 <= l < |lists| && id in lists[l]
  {
    if lists != [] {
      var front, last := lists[..|lists| - 1], |lists| - 1;
      FirstSeenDistinct(front);
      InsertionsDistinct(FirstSeen(front), lists[last]);
      FirstSeenMembers(front, id);
      if id in FirstSeen(front) {
        var l :| 0 <= l < |front| && id in front[l];
        assert id in lists[l];
      }
      if l :| 0 <= l < |lists| && id in lists[l] && l < last {
        assert id in front[l];
      }
    }
  }

  /** Two keys stand in the order in which the concatenated lists first show them. */
  lemma {:induction false} FirstSeenOrder(lists: seq<seq<ChunkId>>)
    ensures FirstSeen(lists) == Insertions([], Concat(lists))
  {
    if lists == [] {
    } else {
      var front, last := lists[..|lists| - 1], lists[|lists| - 1];
      FirstSeenOrder(front);
      assert lists == front + [last];
      ConcatAppend(front, [last]);
      ConcatOne(last);
      InsertionsAppend([], Concat(front), last);
    }
  }

  lemma {:induction false} InsertionsAppend(keys: seq<ChunkId>, a: seq<ChunkId>, b: seq<ChunkId>)
    ensures Insertions(keys, a + b) == Insertions(Insertions(keys, a), b)
  {
    if b == [] {
      assert a + b == a;
    } else {
      assert (a + b)[..|a + b| - 1] == a + b[..|b| - 1];
      InsertionsAppend(keys, a, b[..|b| - 1]);
    }
  }

  lemma {:induction false} InsertionsKeepOrder(ids: seq<ChunkId>, x: ChunkId, y: ChunkId)
    requires x in ids && y in ids && IndexOf(ids, x) < IndexOf(ids, y)
    ensures x in Insertions([], ids) && y in Insertions([], ids)
    ensures IndexOf(Insertions([], ids), x) < IndexOf(Insertions([], ids), y)
  {
    var front, last := ids[..|ids| - 1], ids[|ids| - 1];
    var keys := Insertions([], front);
    InsertionsDistinct([], front);
    assert ids == front + [last];
    var i := IndexOf(ids, x);
    assert front[i] == x;
    IndexInPrefix(front, [last], x);
    if y in front {
      IndexInPrefix(front, [last], y);
      InsertionsKeepOrder(front, x, y);
      IndexInPrefix(keys, [last], x);
      IndexInPrefix(keys, [last], y);
    } else {
      assert y == last && y !in keys;
      IndexInPrefix(keys, [last], x);
      assert (keys + [last])[..|keys|] == keys;
      IndexIsFirst(keys + [last], y, |keys|);
    }
  }

  lemma RankingIsRanking(lists: seq<seq<ChunkId>>, k: nat)
    ensures IsRanking(Ranking(lists, k), FirstSeen(lists), id => TotalScore(lists, id, k))
  {
    FirstSeenDistinct(lists);
    SortIsRanking(FirstSeen(lists), id => TotalScore(lists, id, k));
  }

  /** Of two ranked ids the earlier one scores higher, or scores the same and was seen first. */
  lemma RankingOrder(lists: seq<seq<ChunkId>>, k: nat, i: nat, j: nat)
    requires i < j < |Ranking(lists, k)|
    ensures
      var x, y := Ranking(lists, k)[i], Ranking(lists, k)[j];
      && x in Concat(lists) && y in Concat(lists)
      && (TotalScore(lists, x, k) > TotalScore(lists, y, k)
          || (TotalScore(lists, x, k) == TotalScore(lists, y, k) && IndexOf(Concat(lists), x) < IndexOf(Concat(lists), y)))
  {
    var x, y := Ranking(lists, k)[i], Ranking(lists, k)[j];
    var flat := Concat(lists);
    RankingIsRanking(lists, k);
    FirstSeenOrder(lists);
    InsertionsDistinct([], flat);
    assert x in FirstSeen(lists) && y in FirstSeen(lists);
    assert Precedes(FirstSeen(lists), id => TotalScore(lists, id, k), x, y);
    if IndexOf(flat, y) < IndexOf(flat, x) {
      InsertionsKeepOrder(flat, y, x);
    }
  }

  /**
   * The output is the `topK` best of the distinct ids: it has no repeats, every ranked id occurs
   * in some list and the other way round, and nothing left out scores higher than what is returned.
   */
  lemma TopIsBest(lists: seq<seq<ChunkId>>, k: nat, topK: nat)
    ensures
      var ranking, n := Ranking(lists, k), Min(topK, |Ranking(lists, k)|);
      && |ranking| == |Elements(FirstSeen(lists))|
      && Distinct(ranking[..n])
      && (forall id :: id in ranking <==> exists l :: 0 <= l < |lists| && id in lists[l])
      && (forall id, i :: id in ranking && id !in ranking[..n] && 0 <= i < n ==>
            TotalScore(lists, ranking[i], k) >= TotalScore(lists, id, k))
  {
    var ranking, n := Ranking(lists, k), Min(topK, |Ranking(lists, k)|);
    RankingIsRanking(lists, k);
    FirstSeenDistinct(lists);
    DistinctCardinality(FirstSeen(lists));
    forall id ensures id in ranking <==> exists l :: 0 <= l < |lists| && id in lists[l] {
      FirstSeenMembers(lists, id);
      assert id in ranking <==> id in FirstSeen(lists);
    }
    assert forall m :: 0 <= m < n ==> ranking[..n][m] == ranking[m];
    forall id, i | id in ranking && id !in ranking[..n] && 0 <= i < n
      ensures TotalScore(lists, ranking[i], k) >= TotalScore(lists, id, k)
    {
      var j := IndexOf(ranking, id);
      RankingOrder(lists, k, i, j);
    }
  }

  // ------------------------------------------------------ monotonicity

  lemma {:induction false} ListScoreAt(ids: seq<ChunkId>, id: ChunkId, k: nat)
    requires Distinct(ids)
    ensures ListScore(ids, id, k) == if id in ids then Weight(k, IndexOf(ids, id)) else 0.0
  {
    if ids != [] {
      var front, last := ids[..|ids| - 1], ids[|ids| - 1];
      ListScoreAt(front, id, k);
      assert ids == front + [last];
      if id in front {
        IndexInPrefix(front, [last], id);
        assert id != last;
      }
    }
  }

  lemma WeightDecreases(k: nat, i: nat, j: nat)
    requires i < j
    ensures 0.0 < Weight(k, j) < Weight(k, i)
  {
    Reciprocal((k + i + 1) as real, (k + j + 1) as real);
  }

  lemma Reciprocal(a: real, b: real)
    requires 0.0 < a < b
    ensures 0.0 < 1.0 / b < 1.0 / a
  {
    assert 1.0 / a - 1.0 / b == (b - a) / (a * b);
  }

  /** a stands ahead of b in every list that contains b. */
  ghost predicate Dominates(lists: seq<seq<ChunkId>>, a: ChunkId, b: ChunkId) {
    forall l :: 0 <= l < |lists| && b in lists[l] ==>
      a in lists[l] && IndexOf(lists[l], a) < IndexOf(lists[l], b)
  }

  lemma {:induction false} DominanceScores(lists: seq<seq<ChunkId>>, a: ChunkId, b: ChunkId, k: nat)
    requires forall l :: 0 <= l < |lists| ==> Distinct(lists[l])
    requires Dominates(lists, a, b)
    ensures TotalScore(lists, a, k) >= TotalScore(lists, b, k)
    ensures (exists l :: 0 <= l < |lists| && b in lists[l]) ==> TotalScore(lists, a, k) > TotalScore(lists, b, k)
  {
    if lists != [] {
      var front, last := lists[..|lists| - 1], |lists| - 1;
      assert forall l :: 0 <= l < last ==> front[l] == lists[l];
      DominanceScores(front, a, b, k);
      ListScoreAt(lists[last], a, k);
      ListScoreAt(lists[last], b, k);
      if b in lists[last] {
        WeightDecreases(k, IndexOf(lists[last], a), IndexOf(lists[last], b));
      } else {
        if a in lists[last] {
          WeightDecreases(k, IndexOf(lists[last], a), IndexOf(lists[last], a) + 1);
        }
        if l :| 0 <= l < |lists| && b in lists[l] {
          assert b in front[l];
        }
      }
    }
  }

  /** On lists without repeats, a chunk that is ahead of another wherever that one occurs precedes it in the output. */
  lemma AheadEverywhereIsAhead(lists: seq<seq<ChunkId>>, a: ChunkId, b: ChunkId, k: nat, topK: nat)
    requires forall l :: 0 <= l < |lists| ==> Distinct(lists[l])
    requires Dominates(lists, a, b)
    requires b in Ranking(lists, k)
    ensures a in Ranking(lists, k) && IndexOf(Ranking(lists, k), a) < IndexOf(Ranking(lists, k), b)
    ensures b in Ranking(lists, k)[..Min(topK, |Ranking(lists, k)|)] ==>
            a in Ranking(lists, k)[..Min(topK, |Ranking(lists, k)|)]
  {
    var ranking, keys := Ranking(lists, k), FirstSeen(lists);
    var key := id => TotalScore(lists, id, k);
    FirstSeenDistinct(lists);
    SortIsRanking(keys, key);
    FirstSeenMembers(lists, a);
    FirstSeenMembers(lists, b);
    DominanceScores(lists, a, b, k);
    assert a in keys && b in keys;
    var i, j := IndexOf(ranking, a), IndexOf(ranking, b);
    RankedBefore(ranking, keys, key, a, b);
    var n := Min(topK, |ranking|);
    if b in ranking[..n] {
      var m :| 0 <= m < n && ranking[m] == b;
      assert m == j;
      assert ranking[..n][i] == a;
    }
  }

  /** The list with its item at `from` moved up to place `to`. */
  function MoveUp(ids: seq<ChunkId>, from: nat, to: nat): seq<ChunkId>
    requires to <= from < |ids|
  {
    ids[..to] + [ids[from]] + ids[to..from] + ids[from + 1..]
  }

  lemma MoveUpItems(ids: seq<ChunkId>, from: nat, to: nat)
    requires to < from < |ids|
    ensures
      var moved := MoveUp(ids, from, to);
      && |moved| == |ids|
      && moved[to] == ids[from]
      && (forall i :: 0 <= i < to || from < i < |ids| ==> moved[i] == ids[i])
      && (forall i :: to <= i < from ==> moved[i + 1] == ids[i])
      && (forall i :: to < i <= from ==> moved[i] == ids[i - 1])
  {
  }

  lemma MoveUpPlaces(ids: seq<ChunkId>, from: nat, to: nat, id: ChunkId)
    requires to < from < |ids| && Distinct(ids)
    ensures Distinct(MoveUp(ids, from, to))
    ensures id in MoveUp(ids, from, to) <==> id in ids
    ensures id == ids[from] ==> IndexOf(MoveUp(ids, from, to), id) == to && IndexOf(ids, id) == from
    ensures id in ids && id != ids[from] ==> IndexOf(ids, id) <= IndexOf(MoveUp(ids, from, to), id)
  {
    var moved := MoveUp(ids, from, to);
    MoveUpItems(ids, from, to);
    IndexInDistinct(ids, from);
    if id in ids {
      var i := IndexOf(ids, id);
      IndexInDistinct(moved, if i < to || i > from then i else if i == from then to else i + 1);
    }
  }

  lemma {:induction false} TotalScoreUpdate(lists: seq<seq<ChunkId>>, l: nat, ids: seq<ChunkId>, id: ChunkId, k: nat)
    requires l < |lists|
    ensures TotalScore(lists[l := ids], id, k)
            == TotalScore(lists, id, k) - ListScore(lists[l], id, k) + ListScore(ids, id, k)
  {
    var last := |lists| - 1;
    if l == last {
      assert lists[l := ids][..last] == lists[..last];
    } else {
      assert lists[l := ids][..last] == lists[..last][l := ids];
      TotalScoreUpdate(lists[..last], l, ids, id, k);
    }
  }

  /** Moving a chunk up in one list raises its score and no other. */
  lemma MoveUpScores(lists: seq<seq<ChunkId>>, l: nat, from: nat, to: nat, id: ChunkId, k: nat)
    requires l < |lists| && to < from < |lists[l]| && Distinct(lists[l])
    ensures
      var moved := lists[l := MoveUp(lists[l], from, to)];
      if id == lists[l][from] then TotalScore(moved, id, k) > TotalScore(lists, id, k)
      else TotalScore(moved, id, k) <= TotalScore(lists, id, k)
  {
    var ids := lists[l];
    var moved := MoveUp(ids, from, to);
    MoveUpPlaces(ids, from, to, id);
    TotalScoreUpdate(lists, l, moved, id, k);
    ListScoreAt(ids, id, k);
    ListScoreAt(moved, id, k);
    if id == ids[from] {
      WeightDecreases(k, to, from);
    } else if id in ids && IndexOf(ids, id) < IndexOf(moved, id) {
      WeightDecreases(k, IndexOf(ids, id), IndexOf(moved, id));
    }
  }

  /** Moving a chunk up in one list never worsens its place in the output. */
  lemma MoveUpNeverHurts(lists: seq<seq<ChunkId>>, l: nat, from: nat, to: nat, k: nat)
    requires forall i :: 0 <= i < |lists| ==> Distinct(lists[i])
    requires l < |lists| && to < from < |lists[l]|
    ensures
      var moved, id := lists[l := MoveUp(lists[l], from, to)], lists[l][from];
      && id in Ranking(lists, k) && id in Ranking(moved, k)
      && IndexOf(Ranking(moved, k), id) <= IndexOf(Ranking(lists, k), id)
  {
    var moved, id := lists[l := MoveUp(lists[l], from, to)], lists[l][from];
    var key, key' := x => TotalScore(lists, x, k), x => TotalScore(moved, x, k);
    var keys, keys' := FirstSeen(lists), FirstSeen(moved);
    FirstSeenDistinct(lists);
    FirstSeenDistinct(moved);
    SortIsRanking(keys, key);
    SortIsRanking(keys', key');
    MoveUpPlaces(lists[l], from, to, id);
    FirstSeenMembers(lists, id);
    FirstSeenMembers(moved, id);
    assert id in lists[l] && id in moved[l];
    forall y | y in Predecessors(keys', key', id)
      ensures y in Predecessors(keys, key, id)
    {
      MoveUpPlaces(lists[l], from, to, y);
      FirstSeenMembers(lists, y);
      FirstSeenMembers(moved, y);
      var m :| 0 <= m < |moved| && y in moved[m];
      assert y in lists[m];
      MoveUpScores(lists, l, from, to, y, k);
      MoveUpScores(lists, l, from, to, id, k);
    }
    SubsetCardinality(Predecessors(keys', key', id), Predecessors(keys, key, id));
    PlaceInRanking(Ranking(lists, k), keys, key, IndexOf(Ranking(lists, k), id));
    PlaceInRanking(Ranking(moved, k), keys', key', IndexOf(Ranking(moved, k), id));
  }

  // ------------------------------------------------------- what k is for

  lemma {:induction false} NotInPlaces(ids: seq<ChunkId>, id: ChunkId, k: nat, r: nat)
    requires r <= |ids| && id !in ids[r..]
    ensures PlacesFrom(ids, id, k, r) == 0.0
    decreases |ids| - r
  {
    if r < |ids| {
      NotInPlaces(ids, id, k, r + 1);
    }
  }

  lemma {:induction false} OnePlace(ids: seq<ChunkId>, k: nat, s: nat, r: nat)
    requires Distinct(ids) && r <= s < |ids|
    ensures PlacesFrom(ids, ids[s], k, r) == 1.0 / (k + s + 1) as real
    decreases s - r
  {
    if r < s {
      OnePlace(ids, k, s, r + 1);
    } else {
      NotInPlaces(ids, ids[s], k, r + 1);
    }
  }

  lemma Halves(x: real, y: real)
    requires x > 0.0 && y > 0.0
    ensures 1.0 / x + 1.0 / x > 1.0 / y <==> 2.0 * y > x
  {
    var a, b := 1.0 / x, 1.0 / y;
    assert a * x == 1.0 && b * y == 1.0;
    assert (a + a - b) * (x * y) == 2.0 * y - x by {
      assert (a + a - b) * (x * y) == 2.0 * (a * x) * y - (b * y) * x;
    }
    assert x * y > 0.0;
    if a + a > b {
      assert (a + a - b) * (x * y) > 0.0;
    } else {
      assert (a + a - b) * (x * y) <= 0.0;
    }
  }

  /**
   * What the constant k decides: an id at rank s of two lists scores above one at rank r of a single
   * list if and only if s < k + 2 r + 1, and then it precedes it in the output.
   */
  lemma TwoListsBeatOne(xs: seq<ChunkId>, ys: seq<ChunkId>, s: nat, r: nat, b: ChunkId, k: nat)
    requires Distinct(xs) && Distinct(ys) && s < |xs| && s < |ys| && xs[s] == ys[s]
    requires (r < |xs| && xs[r] == b && b !in ys) || (r < |ys| && ys[r] == b && b !in xs)
    ensures PlacesIn([xs, ys], xs[s], k) > PlacesIn([xs, ys], b, k) <==> s < k + 2 * r + 1
    ensures s < k + 2 * r + 1 ==>
              && xs[s] in Ranking([xs, ys], k) && b in Ranking([xs, ys], k)
              && IndexOf(Ranking([xs, ys], k), xs[s]) < IndexOf(Ranking([xs, ys], k), b)
  {
    hide Ranking;
    var lists, a := [xs, ys], xs[s];
    OnePlace(xs, k, s, 0);
    OnePlace(ys, k, s, 0);
    PlacesOfTwo(xs, ys, a, k);
    PlacesOfTwo(xs, ys, b, k);
    if r < |xs| && xs[r] == b && b !in ys {
      OnePlace(xs, k, r, 0);
      NotInPlaces(ys, b, k, 0);
    } else {
      OnePlace(ys, k, r, 0);
      NotInPlaces(xs, b, k, 0);
    }
    Halves((k + s + 1) as real, (k + r + 1) as real);
    if s < k + 2 * r + 1 {
      assert a in lists[0] && (b in lists[0] || b in lists[1]);
      HigherIsAhead(lists, a, b, k);
    }
  }

  lemma PlacesOfTwo(xs: seq<ChunkId>, ys: seq<ChunkId>, id: ChunkId, k: nat)
    ensures PlacesIn([xs, ys], id, k) == PlacesFrom(xs, id, k, 0) + PlacesFrom(ys, id, k, 0)
  {
    assert [xs, ys][1..] == [ys] && [ys][1..] == [];
    assert PlacesIn([ys], id, k) == PlacesFrom(ys, id, k, 0) + PlacesIn([], id, k);
  }

  /** Of two ids that occur, the one with the higher score is ahead. */
  lemma HigherIsAhead(lists: seq<seq<ChunkId>>, a: ChunkId, b: ChunkId, k: nat)
    requires exists l :: 0 <= l < |lists| && a in lists[l]
    requires exists l :: 0 <= l < |lists| && b in lists[l]
    requires PlacesIn(lists, a, k) > PlacesIn(lists, b, k)
    ensures a in Ranking(lists, k) && b in Ranking(lists, k)
    ensures IndexOf(Ranking(lists, k), a) < IndexOf(Ranking(lists, k), b)
  {
    var ranking, keys := Ranking(lists, k), FirstSeen(lists);
    var key := id => TotalScore(lists, id, k);
    FirstSeenDistinct(lists);
    SortIsRanking(keys, key);
    FirstSeenMembers(lists, a);
    FirstSeenMembers(lists, b);
    TotalScoreIs(lists, a, k);
    TotalScoreIs(lists, b, k);
    RankedBefore(ranking, keys, key, a, b);
  }
}
