/** The part of vector search that merges chunk rows with alias rows. */
module VectorMerge {
  import opened Sequences
  import opened StableSort
  import opened SearchResults

  datatype Row = Row(id: ChunkId, distance: real)
  datatype Hit = Hit(id: ChunkId, score: real)

  function RowId(row: Row): ChunkId { row.id }
  function HitId(h: Hit): ChunkId { h.id }
  function HitScore(h: Hit): real { h.score }

  function RowHit(row: Row): Hit {
    Hit(row.id, 1.0 - row.distance)
  }

  function HitIds(hits: seq<Hit>): seq<ChunkId> {
    Map(HitId, hits)
  }

  /** The hits so far and, for each id not yet among them, the first alias row that has it. */
  function AddAliases(hits: seq<Hit>, aliasRows: seq<Row>): seq<Hit> {
    if aliasRows == [] then hits
    else
      var front, row := AddAliases(hits, aliasRows[..|aliasRows| - 1]), aliasRows[|aliasRows| - 1];
      if row.id in HitIds(front) then front else front + [RowHit(row)]
  }

  function Candidates(rows: seq<Row>, aliasRows: seq<Row>): seq<Hit> {
    AddAliases(Map(RowHit, rows), aliasRows)
  }

  function Merge(rows: seq<Row>, aliasRows: seq<Row>): seq<Hit> {
    Sort(Candidates(rows, aliasRows), HitScore)
  }

  lemma AddHitId(hits: seq<Hit>, h: Hit)
    ensures HitIds(hits + [h]) == HitIds(hits) + [h.id]
  {
  }

  function HitOf(r: SearchResult): Hit
    reads r
  {
    Hit(r.chunkId, r.score)
  }

  function Hits(results: seq<SearchResult>): (hits: seq<Hit>)
    reads results
    ensures |hits| == |results|
    ensures forall i :: 0 <= i < |hits| ==> hits[i] == Hit(results[i].chunkId, results[i].score)
  {
    seq(|results|, i requires 0 <= i < |results| reads results => HitOf(results[i]))
  }

  lemma SameIds(results: seq<SearchResult>)
    ensures forall id :: id in (set r | r in results :: r.chunkId) <==> id in HitIds(Hits(results))
  {
    forall r | r in results ensures r.chunkId in HitIds(Hits(results)) {
      var i :| 0 <= i < |results| && results[i] == r;
      assert HitIds(Hits(results))[i] == r.chunkId;
    }
  }

  /** Appends the record of one row. */
  method Append(results: seq<SearchResult>, row: Row) returns (longer: seq<SearchResult>)
    ensures forall r :: r in longer ==> r in results || fresh(r)
    ensures Hits(longer) == Hits(results) + [RowHit(row)]
  {
    var r := new SearchResult(row.id, 1.0 - row.distance);
    longer := results + [r];
  }

  method Search(rows: seq<Row>, aliasRows: seq<Row>, topK: nat) returns (results: seq<SearchResult>)
    ensures forall r :: r in results ==> fresh(r)
    ensures Hits(results) == Merge(rows, aliasRows)[..Min(topK, |Merge(rows, aliasRows)|)]
  {
    hide AddAliases, Sort, HitIds;
    results := [];
    for i := 0 to |rows|
      invariant forall r :: r in results ==> fresh(r)
      invariant Hits(results) == Map(RowHit, rows[..i])
    {
      results := Append(results, rows[i]);
      assert Map(RowHit, rows[..i + 1]) == Map(RowHit, rows[..i]) + [RowHit(rows[i])];
    }
    assert rows[..|rows|] == rows;
    var merged := MergeAliases(results, aliasRows);
    var sorted := SortByScore(merged);
    var n := Min(topK, |sorted|);
    results := sorted[..n];
    assert forall r :: r in results ==> r in sorted;
  }

  /** Appends the record of each alias row whose id has not been seen. */
  method MergeAliases(results: seq<SearchResult>, aliasRows: seq<Row>) returns (merged: seq<SearchResult>)
    ensures forall r :: r in merged ==> r in results || fresh(r)
    ensures Hits(merged) == AddAliases(Hits(results), aliasRows)
  {
    hide HitIds;
    var seen := set r | r in results :: r.chunkId;
    SameIds(results);
    merged := results;
    for i := 0 to |aliasRows|
      invariant forall r :: r in merged ==> r in results || fresh(r)
      invariant Hits(merged) == AddAliases(Hits(results), aliasRows[..i])
      invariant forall id :: id in seen <==> id in HitIds(Hits(merged))
    {
      var row := aliasRows[i];
      assert aliasRows[..i + 1][..i] == aliasRows[..i];
      if row.id !in seen {
        AddHitId(Hits(merged), RowHit(row));
        merged := Append(merged, row);
        seen := seen + {row.id};
      }
    }
    assert aliasRows[..|aliasRows|] == aliasRows;
  }

  /** The stable sort of the records by descending score. */
  method SortByScore(results: seq<SearchResult>) returns (sorted: seq<SearchResult>)
    ensures Hits(sorted) == Sort(Hits(results), HitScore)
    ensures forall r :: r in sorted ==> r in results
  {
    var view := map r | r in results :: Hit(r.chunkId, r.score);
    var hit := (r: SearchResult) => if r in view then view[r] else Hit(r.chunkId, 0.0);
    var key := (r: SearchResult) => hit(r).score;
    assert Map(hit, results) == Hits(results);
    SortMapped(results, hit, key, HitScore);
    SortMembers(results, key);
    sorted := Sort(results, key);
    assert Map(hit, sorted) == Hits(sorted);
  }

  // ------------------------------------------------ what the merge returns

  /** The alias rows come back nearest first. */
  predicate ByDistance(rows: seq<Row>) {
    forall i, j :: 0 <= i < j < |rows| ==> rows[i].distance <= rows[j].distance
  }

  /** The score an id deserves: its main row's, or else the best of its alias rows'. */
  ghost predicate Deserves(rows: seq<Row>, aliasRows: seq<Row>, h: Hit) {
    if exists i :: 0 <= i < |rows| && rows[i].id == h.id
    then exists i :: 0 <= i < |rows| && h == Hit(rows[i].id, 1.0 - rows[i].distance)
    else
      && (exists i :: 0 <= i < |aliasRows| && h == Hit(aliasRows[i].id, 1.0 - aliasRows[i].distance))
      && (forall i :: 0 <= i < |aliasRows| && aliasRows[i].id == h.id ==> 1.0 - aliasRows[i].distance <= h.score)
  }

  ghost predicate Occurs(rows: seq<Row>, aliasRows: seq<Row>, id: ChunkId) {
    (exists i :: 0 <= i < |rows| && rows[i].id == id) || (exists i :: 0 <= i < |aliasRows| && aliasRows[i].id == id)
  }

  lemma {:induction false} CandidatesDeserve(rows: seq<Row>, aliasRows: seq<Row>)
    requires Distinct(Map(RowId, rows)) && ByDistance(aliasRows)
    ensures
      var hits := Candidates(rows, aliasRows);
      && Distinct(HitIds(hits))
      && (forall h :: h in hits ==> Deserves(rows, aliasRows, h))
      && (forall id :: id in HitIds(hits) <==> Occurs(rows, aliasRows, id))
  {
    var hits := Candidates(rows, aliasRows);
    if aliasRows == [] {
      assert HitIds(hits) == Map(RowId, rows);
      forall h | h in hits ensures Deserves(rows, aliasRows, h) {
        var i :| 0 <= i < |hits| && hits[i] == h;
        assert RowHit(rows[i]) == h && rows[i].id == h.id;
      }
    } else {
      var last := |aliasRows| - 1;
      var front, row := aliasRows[..last], aliasRows[last];
      CandidatesDeserve(rows, front);
      var before := Candidates(rows, front);
      if row.id !in HitIds(before) {
        AddHitId(before, RowHit(row));
      }
      forall id ensures Occurs(rows, aliasRows, id) <==> Occurs(rows, front, id) || id == row.id {
        OccursOneMore(rows, aliasRows, id);
      }
      forall h | h in hits ensures Deserves(rows, aliasRows, h) {
        if h in before {
          StillDeserves(rows, aliasRows, h);
        } else {
          assert h == RowHit(row) && !Occurs(rows, front, h.id);
          assert aliasRows[last] == row;
          assert forall i :: 0 <= i < last ==> front[i] == aliasRows[i];
        }
      }
    }
  }

  lemma OccursOneMore(rows: seq<Row>, aliasRows: seq<Row>, id: ChunkId)
    requires aliasRows != []
    ensures var last := |aliasRows| - 1;
            Occurs(rows, aliasRows, id) <==> Occurs(rows, aliasRows[..last], id) || id == aliasRows[last].id
  {
    var last := |aliasRows| - 1;
    assert forall i :: 0 <= i < last ==> aliasRows[..last][i] == aliasRows[i];
  }

  /** A further alias row is no nearer, so it takes nothing from a hit that is already there. */
  lemma StillDeserves(rows: seq<Row>, aliasRows: seq<Row>, h: Hit)
    requires aliasRows != [] && ByDistance(aliasRows) && Deserves(rows, aliasRows[..|aliasRows| - 1], h)
    ensures Deserves(rows, aliasRows, h)
  {
    var last := |aliasRows| - 1;
    var front := aliasRows[..last];
    if !exists i :: 0 <= i < |rows| && rows[i].id == h.id {
      var i :| 0 <= i < |front| && RowHit(front[i]) == h;
      assert RowHit(aliasRows[i]) == h;
      forall j | 0 <= j < |aliasRows| && aliasRows[j].id == h.id
        ensures RowHit(aliasRows[j]).score <= h.score
      {
        if j < last {
          assert front[j] == aliasRows[j];
        }
      }
    }
  }

  /** The merged list is a ranking of the candidates by score. */
  lemma MergeIsRanking(rows: seq<Row>, aliasRows: seq<Row>)
    requires Distinct(Map(RowId, rows)) && ByDistance(aliasRows)
    ensures IsRanking(Merge(rows, aliasRows), Candidates(rows, aliasRows), HitScore)
    ensures Distinct(HitIds(Merge(rows, aliasRows)))
    ensures forall id :: id in HitIds(Merge(rows, aliasRows)) <==> id in HitIds(Candidates(rows, aliasRows))
  {
    hide Deserves, Occurs, Candidates;
    var hits, all := Candidates(rows, aliasRows), Merge(rows, aliasRows);
    CandidatesDeserve(rows, aliasRows);
    assert forall i :: 0 <= i < |hits| ==> HitIds(hits)[i] == hits[i].id;
    SortIsRanking(hits, HitScore);
    SameIdMeansSameHit(hits);
    assert forall i :: 0 <= i < |all| ==> all[i] in hits && HitIds(all)[i] == all[i].id;
    forall id ensures id in HitIds(all) <==> id in HitIds(hits) {
      IdOfHit(all, id);
      IdOfHit(hits, id);
    }
  }

  /**
   * The result holds `topK` of the ids that occur, each once with the score it deserves, in
   * descending order, and no id that is left out deserves more than one that is returned.
   */
  lemma MergeIsBest(rows: seq<Row>, aliasRows: seq<Row>, topK: nat)
    requires Distinct(Map(RowId, rows)) && ByDistance(aliasRows)
    ensures
      var all, n := Merge(rows, aliasRows), Min(topK, |Merge(rows, aliasRows)|);
      && Distinct(HitIds(all[..n]))
      && (forall id :: id in HitIds(all) <==> Occurs(rows, aliasRows, id))
      && (forall i :: 0 <= i < |all| ==> Deserves(rows, aliasRows, all[i]))
      && (forall i, j :: 0 <= i < j < |all| ==> all[i].score >= all[j].score)
      && (forall h, i :: h in all && h !in all[..n] && 0 <= i < n ==> all[i].score >= h.score)
  {
    hide Deserves, Occurs, Candidates, Merge;
    var hits, all := Candidates(rows, aliasRows), Merge(rows, aliasRows);
    var n := Min(topK, |all|);
    CandidatesDeserve(rows, aliasRows);
    MergeIsRanking(rows, aliasRows);
    assert forall i :: 0 <= i < |all| ==> all[i] in hits;
    assert HitIds(all[..n]) == HitIds(all)[..n];
    forall i, j | 0 <= i < j < |all| ensures all[i].score >= all[j].score {
      assert Precedes(hits, HitScore, all[i], all[j]);
    }
    assert forall m :: 0 <= m < n ==> all[..n][m] == all[m];
  }

  lemma SameIdMeansSameHit(hits: seq<Hit>)
    requires Distinct(HitIds(hits))
    ensures forall g, h :: g in hits && h in hits && g.id == h.id ==> g == h
  {
    forall g, h | g in hits && h in hits && g.id == h.id ensures g == h {
      var i :| 0 <= i < |hits| && hits[i] == g;
      var j :| 0 <= j < |hits| && hits[j] == h;
      assert HitIds(hits)[i] == HitIds(hits)[j];
    }
  }

  lemma IdOfHit(hits: seq<Hit>, id: ChunkId)
    ensures id in HitIds(hits) <==> exists h :: h in hits && h.id == id
  {
    if id in HitIds(hits) {
      var i :| 0 <= i < |hits| && HitIds(hits)[i] == id;
      assert hits[i] in hits;
    }
    if h :| h in hits && h.id == id {
      var i :| 0 <= i < |hits| && hits[i] == h;
      assert HitIds(hits)[i] == id;
    }
  }
}
