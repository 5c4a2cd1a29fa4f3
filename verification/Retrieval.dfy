/** The two searches and their fusion together. */
module Retrieval {
  import opened Sequences
  import opened StableSort
  import opened SearchResults
  import opened Fusion
  import opened VectorMerge

  /** The ids that vector search returns. */
  function VectorIds(rows: seq<Row>, aliasRows: seq<Row>, topK: nat): seq<ChunkId> {
    HitIds(Merge(rows, aliasRows)[..Min(topK, |Merge(rows, aliasRows)|)])
  }

  /** Wherever b occurs in vector search, a deserves more. */
  ghost predicate DeservesMore(rows: seq<Row>, aliasRows: seq<Row>, a: ChunkId, b: ChunkId) {
    forall h :: h in Merge(rows, aliasRows) && h.id == b ==>
      exists g :: g in Merge(rows, aliasRows) && g.id == a && g.score > h.score
  }

  /** Then a is ahead of b among the results of vector search, whatever is cut off. */
  lemma DeservingMoreIsAhead(rows: seq<Row>, aliasRows: seq<Row>, topK: nat, a: ChunkId, b: ChunkId)
    requires Distinct(Map(RowId, rows)) && ByDistance(aliasRows) && DeservesMore(rows, aliasRows, a, b)
    ensures var ids := VectorIds(rows, aliasRows, topK);
            Distinct(ids) && (b in ids ==> a in ids && IndexOf(ids, a) < IndexOf(ids, b))
  {
    hide Merge, Deserves, Occurs, IndexOf, DeservesMore;
    var all := Merge(rows, aliasRows);
    var n := Min(topK, |all|);
    MergeIsBest(rows, aliasRows, topK);
    IdsOfHits(all, n);
    var ids := HitIds(all[..n]);
    if b in ids {
      var j := IndexOf(ids, b);
      var i := OneThatDeservesMore(rows, aliasRows, a, b, j);
      assert i < j;
      PlaceOf(ids, i);
    }
  }

  lemma OneThatDeservesMore(rows: seq<Row>, aliasRows: seq<Row>, a: ChunkId, b: ChunkId, j: nat) returns (i: nat)
    requires DeservesMore(rows, aliasRows, a, b) && j < |Merge(rows, aliasRows)| && Merge(rows, aliasRows)[j].id == b
    ensures var all := Merge(rows, aliasRows); i < |all| && all[i].id == a && all[i].score > all[j].score
  {
    hide Merge;
    var all := Merge(rows, aliasRows);
    assert all[j] in all;
    var g :| g in all && g.id == a && g.score > all[j].score;
    i :| 0 <= i < |all| && all[i] == g;
  }

  lemma IdsOfHits(all: seq<Hit>, n: nat)
    requires n <= |all|
    ensures |HitIds(all[..n])| == n && forall i :: 0 <= i < n ==> HitIds(all[..n])[i] == all[i].id
  {
  }

  lemma PlaceOf(ids: seq<ChunkId>, i: nat)
    requires Distinct(ids) && i < |ids|
    ensures IndexOf(ids, ids[i]) == i
  {
    assert ids[IndexOf(ids, ids[i])] == ids[i];
  }

  /**
   * A chunk that deserves more than another in vector search and stands before it among the keyword
   * results, wherever that one occurs, precedes it in the fused ranking.
   */
  lemma BetterInBothIsAhead(
    rows: seq<Row>, aliasRows: seq<Row>, keywords: seq<ChunkId>, vectorK: nat, a: ChunkId, b: ChunkId, k: nat, topK: nat)
    requires Distinct(Map(RowId, rows)) && ByDistance(aliasRows) && Distinct(keywords)
    requires DeservesMore(rows, aliasRows, a, b)
    requires b in keywords ==> a in keywords && IndexOf(keywords, a) < IndexOf(keywords, b)
    ensures
      var ranking := Ranking([VectorIds(rows, aliasRows, vectorK), keywords], k);
      var n := Min(topK, |ranking|);
      && (b in ranking ==> a in ranking && IndexOf(ranking, a) < IndexOf(ranking, b))
      && (b in ranking[..n] ==> a in ranking[..n])
  {
    hide VectorIds, DeservesMore, Ranking;
    var lists := [VectorIds(rows, aliasRows, vectorK), keywords];
    DeservingMoreIsAhead(rows, aliasRows, vectorK, a, b);
    assert Dominates(lists, a, b);
    var ranking := Ranking(lists, k);
    if b in ranking {
      AheadEverywhereIsAhead(lists, a, b, k, topK);
    }
    assert b in ranking[..Min(topK, |ranking|)] ==> b in ranking;
  }
}
