/** The mutable result records that retrieval produces and fusion rescores. */
module SearchResults {
  type ChunkId = string

  class SearchResult {
    const chunkId: ChunkId
    var score: real

    constructor (chunkId: ChunkId, score: real)
      ensures this.chunkId == chunkId && this.score == score
    {
      this.chunkId := chunkId;
      this.score := score;
    }
  }

  function Ids(results: seq<SearchResult>): (ids: seq<ChunkId>)
    ensures |ids| == |results|
    ensures forall i :: 0 <= i < |ids| ==> ids[i] == results[i].chunkId
  {
    seq(|results|, i requires 0 <= i < |results| => results[i].chunkId)
  }

  function IdLists(lists: seq<seq<SearchResult>>): (ids: seq<seq<ChunkId>>)
    ensures |ids| == |lists|
    ensures forall i :: 0 <= i < |ids| ==> ids[i] == Ids(lists[i])
  {
    seq(|lists|, i requires 0 <= i < |lists| => Ids(lists[i]))
  }

  /** Every record mentioned in the lists. */
  ghost function Records(lists: seq<seq<SearchResult>>): set<SearchResult> {
    set i, j | 0 <= i < |lists| && 0 <= j < |lists[i]| :: lists[i][j]
  }
}
