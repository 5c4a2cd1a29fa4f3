/**
 * The ingestion of one file in four phases. What a run does is the list of states it commits, one
 * after the other; a run that is cut short leaves one of them behind. The methods carry a session
 * through the phases and are proved to commit exactly these states.
 */
module Ingest {
  import opened Sequences
  import opened Statuses
  import opened Rows
  import opened Hierarchy
  import opened Enriching
  import opened Embedding
  import opened Summarizing

  // ------------------------------------------------------ phase 1

  function ChildCount(groups: seq<Group>): nat {
    if groups == [] then 0 else ChildCount(groups[..|groups| - 1]) + |groups[|groups| - 1].children|
  }

  predicate YieldsNothing(ext: External) {
    ext.groups == [] || ChildCount(ext.groups) == 0
  }

  function ParentRowOf(g: Group): ParentRow {
    ParentRow(g.parent.content, g.parent.tokens)
  }

  function ChunkRowOf(c: Chunk, parent: nat, index: nat): ChunkRow {
    ChunkRow(parent, index, c.content, c.contextPrefix, c.tokens, c.contentType, None, None)
  }

  /** The rows of one group's children, numbered from `first` on. */
  function GroupRows(children: seq<Chunk>, parent: nat, first: nat): (rows: seq<ChunkRow>)
    ensures |rows| == |children|
    ensures forall c :: 0 <= c < |children| ==> rows[c] == ChunkRowOf(children[c], parent, first + c)
  {
    seq(|children|, c requires 0 <= c < |children| => ChunkRowOf(children[c], parent, first + c))
  }

  /** The chunk rows of the first n groups; the index counts on from group to group. */
  function ChunkRows(groups: seq<Group>, n: nat): seq<ChunkRow>
    requires n <= |groups|
  {
    if n == 0 then []
    else
      var front := ChunkRows(groups, n - 1);
      front + GroupRows(groups[n - 1].children, n - 1, |front|)
  }

  /** The batch that phase 1 commits. */
  function ChunkedBatch(ext: External): Batch {
    var chunks := ChunkRows(ext.groups, |ext.groups|);
    Batch(0, BatchCompleted, BatchPending, BatchPending, |chunks|, Map(ParentRowOf, ext.groups), chunks, [])
  }

  /** How many children the first g groups have. */
  function ChildrenBefore(groups: seq<Group>, g: nat): nat
    requires g <= |groups|
  {
    if g == 0 then 0 else ChildrenBefore(groups, g - 1) + |groups[g - 1].children|
  }

  lemma {:induction false} ChunkRowAt(groups: seq<Group>, n: nat, g: nat, c: nat)
    requires g < n <= |groups| && c < |groups[g].children|
    ensures |ChunkRows(groups, n)| == ChildrenBefore(groups, n)
    ensures var j := ChildrenBefore(groups, g) + c;
            j < ChildrenBefore(groups, n) && ChunkRows(groups, n)[j] == ChunkRowOf(groups[g].children[c], g, j)
  {
    hide ChunkRowOf;
    RowsCounted(groups, n - 1);
    if g < n - 1 {
      ChunkRowAt(groups, n - 1, g, c);
    }
  }

  lemma {:induction false} RowsCounted(groups: seq<Group>, n: nat)
    requires n <= |groups|
    ensures |ChunkRows(groups, n)| == ChildrenBefore(groups, n)
  {
    if n > 0 {
      RowsCounted(groups, n - 1);
    }
  }

  lemma {:induction false} ChildAt(groups: seq<Group>, n: nat, g: nat, c: nat)
    requires g < n <= |groups| && c < |groups[g].children|
    ensures |Hierarchy.AllChildren(groups[..n])| == ChildrenBefore(groups, n)
    ensures var j := ChildrenBefore(groups, g) + c;
            j < ChildrenBefore(groups, n) && Hierarchy.AllChildren(groups[..n])[j] == groups[g].children[c]
  {
    ChildrenCounted(groups, n - 1);
    OneGroupMore(groups, n);
    if g < n - 1 {
      ChildAt(groups, n - 1, g, c);
    }
  }

  lemma OneGroupMore(groups: seq<Group>, n: nat)
    requires 0 < n <= |groups|
    ensures Hierarchy.AllChildren(groups[..n]) == Hierarchy.AllChildren(groups[..n - 1]) + groups[n - 1].children
  {
    var lists := Map(ChildrenOf, groups[..n - 1]);
    assert Map(ChildrenOf, groups[..n]) == lists + [groups[n - 1].children];
    ConcatAppend(lists, [groups[n - 1].children]);
    ConcatOne(groups[n - 1].children);
  }

  lemma {:induction false} ChildrenCounted(groups: seq<Group>, n: nat)
    requires n <= |groups|
    ensures |Hierarchy.AllChildren(groups[..n])| == ChildrenBefore(groups, n) == ChildCount(groups[..n])
  {
    if n > 0 {
      ChildrenCounted(groups, n - 1);
      OneGroupMore(groups, n);
      assert groups[..n][..n - 1] == groups[..n - 1];
    } else {
      assert Map(ChildrenOf, groups[..n]) == [];
    }
  }

  lemma {:induction false} GroupOf(groups: seq<Group>, n: nat, j: nat) returns (g: nat, c: nat)
    requires n <= |groups| && j < ChildrenBefore(groups, n)
    ensures g < n && c < |groups[g].children| && j == ChildrenBefore(groups, g) + c
  {
    if j >= ChildrenBefore(groups, n - 1) {
      g, c := n - 1, j - ChildrenBefore(groups, n - 1);
    } else {
      g, c := GroupOf(groups, n - 1, j);
    }
  }

  /** Child c of group g is stored with that group as its parent. */
  predicate StandsUnder(b: Batch, groups: seq<Group>, g: nat, c: nat)
    requires g < |groups|
  {
    var j := ChildrenBefore(groups, g) + c;
    j < |b.chunks| && b.chunks[j].parent == g
  }

  /** Row j has the fields of the child, and j as its index. */
  predicate StoresChild(row: ChunkRow, j: nat, child: Chunk) {
    && row.content == child.content && row.prefix == child.contextPrefix
    && row.tokens == child.tokens && row.contentType == child.contentType && row.index == j
    && row.short.None? && row.full.None?
  }

  /**
   * What phase 1 stores, field by field: a parent row for each group and a chunk row for each child, in
   * order, with the group's place as its parent.
   */
  lemma ChunkedBatchIs(ext: External)
    ensures
      var b, children := ChunkedBatch(ext), Hierarchy.AllChildren(ext.groups);
      && |b.chunks| == |children| == b.count && |b.parents| == |ext.groups|
      && (forall p :: 0 <= p < |b.parents| ==>
            && b.parents[p].content == ext.groups[p].parent.content
            && b.parents[p].tokens == ext.groups[p].parent.tokens)
      && (forall j :: 0 <= j < |children| ==> StoresChild(b.chunks[j], j, children[j]))
      && (forall g, c :: 0 <= g < |ext.groups| && 0 <= c < |ext.groups[g].children| ==>
            StandsUnder(b, ext.groups, g, c))
  {
    hide ChunkRows, ChildrenBefore;
    var groups, n := ext.groups, |ext.groups|;
    var b, children := ChunkedBatch(ext), Hierarchy.AllChildren(groups);
    assert groups[..n] == groups;
    RowsCounted(groups, n);
    ChildrenCounted(groups, n);
    forall j | 0 <= j < |children| ensures StoresChild(b.chunks[j], j, children[j]) {
      var g, c := GroupOf(groups, n, j);
      ChunkRowAt(groups, n, g, c);
      ChildAt(groups, n, g, c);
    }
    forall g, c | 0 <= g < n && 0 <= c < |groups[g].children| ensures StandsUnder(b, groups, g, c) {
      ChunkRowAt(groups, n, g, c);
    }
  }

  /** There is nothing to store exactly if the chunker returned no child. */
  lemma NothingYielded(ext: External)
    ensures YieldsNothing(ext) <==> Hierarchy.AllChildren(ext.groups) == []
  {
    ChildrenCounted(ext.groups, |ext.groups|);
    assert ext.groups[..|ext.groups|] == ext.groups;
  }

  function Phase1(ext: External, db: Db): seq<Db> {
    if YieldsNothing(ext) then [db.(status := Failed)]
    else [db.(batches := db.batches + [ChunkedBatch(ext)], total := 1)]
  }

  // ------------------------------------------------------ phase 2

  function ParentsOf(batches: seq<Batch>): seq<ParentRow> {
    if batches == [] then [] else ParentsOf(batches[..|batches| - 1]) + batches[|batches| - 1].parents
  }

  /** All parents of the file, batch by batch. */
  lemma {:induction false} ParentsAre(batches: seq<Batch>, n: nat)
    requires n <= |batches|
    ensures ParentsOf(batches[..n]) == Concat(seq(n, i requires 0 <= i < n => batches[i].parents))
  {
    var lists := seq(n, i requires 0 <= i < n => batches[i].parents);
    if n > 0 {
      ParentsAre(batches, n - 1);
      var front := seq(n - 1, i requires 0 <= i < n - 1 => batches[i].parents);
      assert batches[..n][..n - 1] == batches[..n - 1] && lists == front + [batches[n - 1].parents];
      ConcatAppend(front, [batches[n - 1].parents]);
      ConcatOne(batches[n - 1].parents);
    } else {
      assert lists == [];
    }
  }

  function SummaryFor(w: World, db: Db): Summary
    requires Readable(w)
  {
    var parents := ParentsOf(db.batches);
    Summarized(w.ext, Reordered(parents, w.fileOrder(|parents|)))
  }

  function Phase2(w: World, db: Db): seq<Db>
    requires Readable(w)
  {
    [db.(summary := Some(SummaryFor(w, db)))]
  }

  // ------------------------------------------------------ phase 3

  function EnrichmentCommits(w: World, sum: Summary, db: Db, i: nat): (commits: seq<Db>)
    requires Readable(w) && i < |db.batches|
    ensures |Last(db, commits).batches| == |db.batches|
  {
    var b := db.batches[i];
    if b.enrichment == BatchCompleted then []
    else
      var started := b.(enrichment := BatchProcessing);
      [SetBatch(db, i, started),
       SetBatch(db, i, EnrichedBatch(w.ext, sum, started, w.parentOrder(i, |b.parents|)))]
  }

  function Phase3(w: World, sum: Summary, db: Db, i: nat): (commits: seq<Db>)
    requires Readable(w) && i <= |db.batches|
    decreases |db.batches| - i
  {
    if i == |db.batches| then []
    else
      var commits := EnrichmentCommits(w, sum, db, i);
      commits + Phase3(w, sum, Last(db, commits), i + 1)
  }

  // ------------------------------------------------------ phase 4

  function SetEmbedding(db: Db, i: nat, status: BatchStatus): (r: Db)
    requires i < |db.batches|
    ensures |r.batches| == |db.batches|
  {
    SetBatch(db, i, db.batches[i].(embedding := status))
  }

  function EmbeddingCommits(w: World, db: Db, i: nat): (commits: seq<Db>)
    requires Readable(w) && i < |db.batches|
    ensures |Last(db, commits).batches| == |db.batches|
  {
    if db.batches[i].embedding == BatchCompleted then []
    else
      var started := SetEmbedding(db, i, BatchProcessing);
      var chunks := ChunkCommits(w.ext, started, i);
      var aliases := AliasCommits(w, Last(started, chunks), i);
      [started] + chunks + aliases + [SetEmbedding(Last(Last(started, chunks), aliases), i, BatchCompleted)]
  }

  function EmbedBatches(w: World, db: Db, i: nat): (commits: seq<Db>)
    requires Readable(w) && i <= |db.batches|
    decreases |db.batches| - i
  {
    if i == |db.batches| then []
    else
      var commits := EmbeddingCommits(w, db, i);
      commits + EmbedBatches(w, Last(db, commits), i + 1)
  }

  /** How many of the batches are embedded. */
  function EmbeddedCount(batches: seq<Batch>): nat {
    if batches == [] then 0
    else
      EmbeddedCount(batches[..|batches| - 1]) + if batches[|batches| - 1].embedding == BatchCompleted then 1 else 0
  }

  function Phase4(w: World, db: Db): seq<Db>
    requires Readable(w)
  {
    var commits := EmbedBatches(w, db, 0);
    var done := Last(db, commits);
    commits + [done.(completed := EmbeddedCount(done.batches))]
  }

  // ------------------------------------------------------ a whole run

  predicate AllChunked(batches: seq<Batch>) {
    batches != [] && forall i :: 0 <= i < |batches| ==> batches[i].chunking == BatchCompleted
  }

  predicate AllEnriched(batches: seq<Batch>) {
    batches != [] && forall i :: 0 <= i < |batches| ==> batches[i].enrichment == BatchCompleted
  }

  predicate AllEmbedded(batches: seq<Batch>) {
    batches != [] && forall i :: 0 <= i < |batches| ==> batches[i].embedding == BatchCompleted
  }

  /** Announces a phase and runs it. */
  function Chunk1(w: World, db: Db): seq<Db> {
    var begun := db.(phase := InChunking);
    [begun] + Phase1(w.ext, begun)
  }

  function Summarize2(w: World, db: Db): seq<Db>
    requires Readable(w)
  {
    var begun := db.(phase := InSummarization);
    [begun] + Phase2(w, begun)
  }

  function Enrich3(w: World, sum: Summary, db: Db): seq<Db>
    requires Readable(w)
  {
    var begun := db.(phase := InEnrichment);
    [begun] + Phase3(w, sum, begun, 0)
  }

  function Embed4(w: World, db: Db): seq<Db>
    requires Readable(w)
  {
    var begun := db.(phase := InEmbedding);
    [begun] + Phase4(w, begun)
  }

  function Finish(db: Db): seq<Db> {
    [db.(status := Ready, phase := NoPhase)]
  }

  /** What follows phase 1; the flags come from the state read at the start. */
  function AfterChunking(w: World, start: Db, db: Db): seq<Db>
    requires Readable(w)
  {
    var two := if start.summary.None? then Summarize2(w, db) else [];
    var db2 := Last(db, two);
    var sum := if start.summary.None? then SummaryFor(w, db.(phase := InSummarization)) else start.summary.value;
    var three := if AllEnriched(start.batches) then [] else Enrich3(w, sum, db2);
    var db3 := Last(db2, three);
    var four := if AllEmbedded(start.batches) then [] else Embed4(w, db3);
    two + three + four + Finish(Last(db3, four))
  }

  /** The states that an uncut run commits, in order. */
  function Commits(w: World, db: Db): seq<Db>
    requires Readable(w)
  {
    var start := db.(status := Processing);
    if AllChunked(start.batches) then [start] + AfterChunking(w, start, start)
    else
      var one := Chunk1(w, start);
      [start] + one + if YieldsNothing(w.ext) then [] else AfterChunking(w, start, Last(start, one))
  }

  // ------------------------------------------------------ cut runs

  /**
   * How a run ends: the process dies or the run is over, the code raises, or the worker's timeout strikes.
   * Either of the last two can still happen while the last commit returns.
   */
  datatype Ending = Crashed | Raised | TimedOut

  /** The error handlers roll back and mark the file; a raise after the first commit also counts a retry. */
  function Cut(db: Db, commits: nat, ending: Ending): Db {
    match ending
    case Crashed => db
    case Raised => if commits == 0 then db.(status := Failed) else db.(status := Failed, retries := db.retries + 1)
    case TimedOut => db.(status := Failed)
  }

  datatype Event =
    // a run that ends after so many commits, or after its last one
    | Attempt(world: World, commits: nat, ending: Ending)
    | Requeue  // the reaper puts a file that was left in PROCESSING back

  function After(db: Db, e: Event): Db
    requires e.Attempt? ==> Readable(e.world)
  {
    match e
    case Attempt(w, k, ending) =>
      var states := Commits(w, db);
      var n := if k < |states| then k else |states|;
      Cut(Last(db, states[..n]), n, ending)
    case Requeue => if db.status == Processing then db.(status := Pending) else db
  }

  /**
   * What a run leaves that ends after k of its commits: the last of them, and after a raise or a timeout
   * FAILED with everything else as committed; a retry is counted only for a raise behind the first one.
   */
  lemma AttemptLeaves(db: Db, w: World, k: nat, ending: Ending)
    requires Readable(w) && k <= |Commits(w, db)|
    ensures
      var last := if k == 0 then db else Commits(w, db)[k - 1];
      var q := After(db, Attempt(w, k, ending));
      if ending == Crashed then q == last
      else
        && q.status == Failed && q.retries == last.retries + (if ending == Raised && k > 0 then 1 else 0)
        && q.phase == last.phase && q.total == last.total && q.completed == last.completed
        && q.batches == last.batches && q.summary == last.summary
  {
    hide Commits;
  }

  ghost predicate AllReadable(events: seq<Event>) {
    forall i :: 0 <= i < |events| && events[i].Attempt? ==> Readable(events[i].world)
  }

  function History(db: Db, events: seq<Event>): Db
    requires AllReadable(events)
  {
    if events == [] then db else After(History(db, events[..|events| - 1]), events[|events| - 1])
  }

  // ------------------------------------------------------ the methods

  ghost predicate Clean(session: Session)
    reads session
  {
    session.working == session.committed
  }

  ghost predicate AllHaveParents(db: Db) {
    forall i :: 0 <= i < |db.batches| ==> HasParents(db.batches[i])
  }

  method CountChildren(groups: seq<Group>) returns (count: nat)
    ensures count == ChildCount(groups)
  {
    count := 0;
    for g := 0 to |groups|
      invariant count == ChildCount(groups[..g])
    {
      assert groups[..g + 1][..g] == groups[..g];
      count := count + |groups[g].children|;
    }
    assert groups[..|groups|] == groups;
  }

  function PendingBatch(parents: seq<ParentRow>, chunks: seq<ChunkRow>): Batch {
    Batch(0, BatchPending, BatchPending, BatchPending, 0, parents, chunks, [])
  }

  /** Chunks the file and stores the rows; they become visible in one commit. */
  method Phase1Chunking(session: Session, ext: External) returns (chunked: bool)
    requires Clean(session)
    modifies session
    ensures Clean(session) && chunked == !YieldsNothing(ext)
    ensures session.log == old(session.log) + Phase1(ext, old(session.committed))
    ensures session.committed == Last(old(session.committed), Phase1(ext, old(session.committed)))
  {
    hide ChunkRows, ChildCount;
    var groups := ext.groups;
    var total := CountChildren(groups);
    if groups == [] || total == 0 {
      session.working := session.working.(status := Failed);
      session.Commit();
      return false;
    }
    ghost var start := session.working;
    var at := |session.working.batches|;
    session.working := session.working.(batches := session.working.batches + [PendingBatch([], [])]);
    NoRows(groups);
    var index := 0;
    for g := 0 to |groups|
      invariant session.log == old(session.log)
      invariant session.working
                == start.(batches := start.batches + [PendingBatch(Map(ParentRowOf, groups[..g]), ChunkRows(groups, g))])
      invariant index == |ChunkRows(groups, g)|
    {
      index := StoreGroup(session, start, groups, g, index);
    }
    assert groups[..|groups|] == groups;
    var batch := session.working.batches[at];
    session.working := SetBatch(session.working, at, batch.(count := index, chunking := BatchCompleted)).(total := 1);
    assert session.working.batches == start.batches + [ChunkedBatch(ext)];
    assert Phase1(ext, start) == [session.working];
    session.Commit();
    return true;
  }

  lemma NoRows(groups: seq<Group>)
    ensures ChunkRows(groups, 0) == []
  {
  }

  /** One parent row, and one row for each of its children. */
  method StoreGroup(session: Session, ghost start: Db, groups: seq<Group>, g: nat, index: nat) returns (next: nat)
    requires g < |groups| && index == |ChunkRows(groups, g)|
    requires session.working
             == start.(batches := start.batches + [PendingBatch(Map(ParentRowOf, groups[..g]), ChunkRows(groups, g))])
    modifies session`working
    ensures session.working
         == start.(batches := start.batches + [PendingBatch(Map(ParentRowOf, groups[..g + 1]), ChunkRows(groups, g + 1))])
    ensures next == |ChunkRows(groups, g + 1)|
  {
    var at := |session.working.batches| - 1;
    ghost var parents, front := Map(ParentRowOf, groups[..g + 1]), ChunkRows(groups, g);
    assert parents == Map(ParentRowOf, groups[..g]) + [ParentRowOf(groups[g])];
    var children := groups[g].children;
    ghost var rows := GroupRows(children, g, index);
    assert ChunkRows(groups, g + 1) == front + rows;
    hide ChunkRows, GroupRows;
    var batch := session.working.batches[at];
    session.working := SetBatch(session.working, at, batch.(parents := batch.parents + [ParentRowOf(groups[g])]));
    next := index;
    assert front + rows[..0] == front;
    for c := 0 to |children|
      invariant next == index + c
      invariant session.working == start.(batches := start.batches + [PendingBatch(parents, front + rows[..c])])
    {
      batch := session.working.batches[at];
      var row := ChunkRowOf(children[c], g, next);
      session.working := SetBatch(session.working, at, batch.(chunks := batch.chunks + [row]));
      assert front + rows[..c + 1] == (front + rows[..c]) + [row];
      next := next + 1;
    }
    assert rows[..|children|] == rows;
  }

  method ReadParents(w: World, db: Db) returns (parents: seq<ParentRow>)
    requires Readable(w)
    ensures var all := ParentsOf(db.batches);
            IsOrder(w.fileOrder(|all|), |all|) && parents == Reordered(all, w.fileOrder(|all|))
  {
    var all: seq<ParentRow> := [];
    for i := 0 to |db.batches|
      invariant all == ParentsOf(db.batches[..i])
    {
      assert db.batches[..i + 1][..i] == db.batches[..i];
      all := all + db.batches[i].parents;
    }
    assert db.batches[..|db.batches|] == db.batches;
    parents := Reordered(all, w.fileOrder(|all|));
  }

  method Phase2Summarization(session: Session, w: World) returns (summary: Summary)
    requires Readable(w) && Clean(session)
    modifies session
    ensures Clean(session) && summary == SummaryFor(w, old(session.committed))
    ensures session.log == old(session.log) + Phase2(w, old(session.committed))
    ensures session.committed == Last(old(session.committed), Phase2(w, old(session.committed)))
  {
    hide ParentsOf;
    var parents := ReadParents(w, session.working);
    summary := Summarize(w.ext, parents);
    session.working := session.working.(summary := Some(summary));
    session.Commit();
  }

  method EnrichOneBatch(session: Session, w: World, sum: Summary, i: nat)
    requires Readable(w) && Clean(session) && AllHaveParents(session.committed) && i < |session.committed.batches|
    modifies session
    ensures Clean(session) && AllHaveParents(session.committed)
    ensures session.log == old(session.log) + EnrichmentCommits(w, sum, old(session.committed), i)
    ensures session.committed == Last(old(session.committed), EnrichmentCommits(w, sum, old(session.committed), i))
  {
    hide EnrichedBatch, HasParents;
    var batch := session.working.batches[i];
    if batch.enrichment == BatchCompleted {
      return;
    }
    ParentOrderIsOrder(w, i, |batch.parents|);
    var started := batch.(enrichment := BatchProcessing);
    session.working := SetBatch(session.working, i, started);
    session.Commit();
    SameChunksHaveParents(batch, started);
    var enriched := EnrichBatch(w.ext, sum, started, w.parentOrder(i, |batch.parents|));
    EnrichedHasParents(w.ext, sum, started, w.parentOrder(i, |batch.parents|));
    session.working := SetBatch(session.working, i, enriched);
    SetTwice(old(session.committed), i, started, enriched);
    assert EnrichmentCommits(w, sum, old(session.committed), i) == [session.committed] + [session.working];
    Associative(old(session.log), [session.committed], [session.working]);
    session.Commit();
  }

  lemma SetTwice(db: Db, i: nat, a: Batch, b: Batch)
    requires i < |db.batches|
    ensures SetBatch(SetBatch(db, i, a), i, b) == SetBatch(db, i, b)
  {
  }

  lemma ParentOrderIsOrder(w: World, i: nat, n: nat)
    requires Readable(w)
    ensures IsOrder(w.parentOrder(i, n), n)
  {
  }

  lemma SameChunksHaveParents(b: Batch, c: Batch)
    requires HasParents(b) && c.parents == b.parents && c.chunks == b.chunks
    ensures HasParents(c)
  {
  }

  lemma EnrichedHasParents(ext: External, sum: Summary, b: Batch, order: seq<nat>)
    requires IsOrder(order, |b.parents|) && HasParents(b)
    ensures HasParents(EnrichedBatch(ext, sum, b, order))
  {
    hide AllSlots, SlotPrefixes, AllAliases;
  }

  method Phase3Enrichment(session: Session, w: World, sum: Summary)
    requires Readable(w) && Clean(session) && AllHaveParents(session.committed)
    modifies session
    ensures Clean(session) && AllHaveParents(session.committed)
    ensures session.log == old(session.log) + Phase3(w, sum, old(session.committed), 0)
    ensures session.committed == Last(old(session.committed), Phase3(w, sum, old(session.committed), 0))
  {
    hide EnrichmentCommits, Last, HasParents, Phase3;
    ghost var start, done: seq<Db> := session.committed, [];
    LastOfNone(start);
    var n := |session.working.batches|;
    for i := 0 to n
      invariant Clean(session) && AllHaveParents(session.committed) && |session.committed.batches| == n
      invariant session.log == old(session.log) + done && session.committed == Last(start, done)
      invariant done + Phase3(w, sum, session.committed, i) == Phase3(w, sum, start, 0)
    {
      ghost var commits := EnrichmentCommits(w, sum, session.committed, i);
      Phase3Step(w, sum, session.committed, i, done);
      EnrichOneBatch(session, w, sum, i);
      LastAppend(start, done, commits);
      done := done + commits;
    }
    Phase3End(w, sum, session.committed);
    assert done + [] == done;
  }

  lemma LastOfNone(db: Db)
    ensures Last(db, []) == db
  {
  }

  lemma Phase3Step(w: World, sum: Summary, db: Db, i: nat, done: seq<Db>)
    requires Readable(w) && i < |db.batches|
    ensures var commits := EnrichmentCommits(w, sum, db, i);
            done + Phase3(w, sum, db, i) == (done + commits) + Phase3(w, sum, Last(db, commits), i + 1)
  {
    hide EnrichmentCommits;
    var commits := EnrichmentCommits(w, sum, db, i);
    Associative(done, commits, Phase3(w, sum, Last(db, commits), i + 1));
  }

  lemma Phase3End(w: World, sum: Summary, db: Db)
    requires Readable(w)
    ensures Phase3(w, sum, db, |db.batches|) == []
  {
  }

  method EmbedOneBatch(session: Session, w: World, i: nat)
    requires Readable(w) && Clean(session) && i < |session.committed.batches|
    modifies session
    ensures Clean(session) && |session.committed.batches| == |old(session.committed).batches|
    ensures session.log == old(session.log) + EmbeddingCommits(w, old(session.committed), i)
    ensures session.committed == Last(old(session.committed), EmbeddingCommits(w, old(session.committed), i))
  {
    hide ChunkCommits, AliasCommits, SetEmbedding, Last;
    ghost var db := session.committed;
    if session.working.batches[i].embedding == BatchCompleted {
      NothingEmbedded(w, db, i);
      return;
    }
    session.working := SetEmbedding(session.working, i, BatchProcessing);
    ghost var started := session.working;
    session.Commit();
    KeepsCount(w, started, i);
    var chunkCount := EmbedFileChunks(session, w.ext, i);
    ghost var chunks := ChunkCommits(w.ext, started, i);
    ghost var stored := session.committed;
    var aliasCount := EmbedFileAliases(session, w, i);
    ghost var aliases := AliasCommits(w, stored, i);
    session.working := SetEmbedding(session.working, i, BatchCompleted);
    EmbeddedInSteps(w, db, i, started, chunks, aliases, session.working, session.log, old(session.log));
    session.Commit();
  }

  lemma NothingEmbedded(w: World, db: Db, i: nat)
    requires Readable(w) && i < |db.batches| && db.batches[i].embedding == BatchCompleted
    ensures EmbeddingCommits(w, db, i) == [] && Last(db, []) == db
  {
  }

  lemma KeepsCount(w: World, db: Db, i: nat)
    requires Readable(w) && i < |db.batches|
    ensures var chunked := Last(db, ChunkCommits(w.ext, db, i));
            |chunked.batches| == |db.batches| && |Last(chunked, AliasCommits(w, chunked, i)).batches| == |db.batches|
  {
    hide WithChunks, WithAliases;
  }

  lemma EmbeddedInSteps(
    w: World, db: Db, i: nat, started: Db, chunks: seq<Db>, aliases: seq<Db>, done: Db, log: seq<Db>, before: seq<Db>)
    requires Readable(w) && i < |db.batches| && db.batches[i].embedding != BatchCompleted
    requires started == SetEmbedding(db, i, BatchProcessing) && chunks == ChunkCommits(w.ext, started, i)
    requires |Last(started, chunks).batches| == |db.batches| && aliases == AliasCommits(w, Last(started, chunks), i)
    requires |Last(Last(started, chunks), aliases).batches| == |db.batches|
    requires done == SetEmbedding(Last(Last(started, chunks), aliases), i, BatchCompleted)
    requires log == before + [started] + chunks + aliases
    ensures log + [done] == before + EmbeddingCommits(w, db, i)
    ensures Last(db, EmbeddingCommits(w, db, i)) == done
  {
    hide ChunkCommits, AliasCommits, SetEmbedding;
    assert EmbeddingCommits(w, db, i) == [started] + chunks + aliases + [done];
    assert before + ([started] + chunks + aliases + [done]) == before + [started] + chunks + aliases + [done];
  }

  method Phase4Embedding(session: Session, w: World)
    requires Readable(w) && Clean(session)
    modifies session
    ensures Clean(session)
    ensures session.log == old(session.log) + Phase4(w, old(session.committed))
    ensures session.committed == Last(old(session.committed), Phase4(w, old(session.committed)))
  {
    hide EmbeddingCommits, Last, EmbedBatches, EmbeddedCount;
    ghost var start, done: seq<Db> := session.committed, [];
    LastOfNone(start);
    var n := |session.working.batches|;
    for i := 0 to n
      invariant Clean(session) && |session.committed.batches| == n
      invariant session.log == old(session.log) + done && session.committed == Last(start, done)
      invariant done + EmbedBatches(w, session.committed, i) == EmbedBatches(w, start, 0)
    {
      ghost var commits := EmbeddingCommits(w, session.committed, i);
      EmbedStep(w, session.committed, i, done);
      EmbedOneBatch(session, w, i);
      LastAppend(start, done, commits);
      done := done + commits;
    }
    EmbedBatchesEnd(w, session.committed);
    assert done + [] == done;
    var count := CountEmbedded(session.working.batches);
    session.working := session.working.(completed := count);
    LastAppend(start, done, [session.working]);
    LastOne(session.committed, session.working);
    Associative(old(session.log), done, [session.working]);
    session.Commit();
  }

  lemma LastOne(db: Db, next: Db)
    ensures Last(db, [next]) == next
  {
  }

  lemma EmbedStep(w: World, db: Db, i: nat, done: seq<Db>)
    requires Readable(w) && i < |db.batches|
    ensures var commits := EmbeddingCommits(w, db, i);
            done + EmbedBatches(w, db, i) == (done + commits) + EmbedBatches(w, Last(db, commits), i + 1)
  {
    hide EmbeddingCommits;
    var commits := EmbeddingCommits(w, db, i);
    Associative(done, commits, EmbedBatches(w, Last(db, commits), i + 1));
  }

  lemma EmbedBatchesEnd(w: World, db: Db)
    requires Readable(w)
    ensures EmbedBatches(w, db, |db.batches|) == []
  {
  }

  method CountEmbedded(batches: seq<Batch>) returns (count: nat)
    ensures count == EmbeddedCount(batches)
  {
    count := 0;
    for i := 0 to |batches|
      invariant count == EmbeddedCount(batches[..i])
    {
      assert batches[..i + 1][..i] == batches[..i];
      if batches[i].embedding == BatchCompleted {
        count := count + 1;
      }
    }
    assert batches[..|batches|] == batches;
  }

  /** Announces a phase. */
  method Begin(session: Session, phase: Phase)
    requires Clean(session)
    modifies session
    ensures Clean(session) && session.committed == old(session.committed).(phase := phase)
    ensures session.log == old(session.log) + [session.committed]
  {
    session.working := session.working.(phase := phase);
    session.Commit();
  }

  method Complete(session: Session)
    requires Clean(session)
    modifies session
    ensures Clean(session) && session.log == old(session.log) + Finish(old(session.committed))
    ensures session.committed == Last(old(session.committed), Finish(old(session.committed)))
  {
    session.working := session.working.(status := Ready, phase := NoPhase);
    session.Commit();
  }

  lemma {:induction false} RowsHaveParents(groups: seq<Group>, n: nat)
    requires n <= |groups|
    ensures forall k :: 0 <= k < |ChunkRows(groups, n)| ==> ChunkRows(groups, n)[k].parent < n
  {
    if n > 0 {
      RowsHaveParents(groups, n - 1);
    }
  }

  lemma Phase1KeepsParents(ext: External, db: Db)
    requires AllHaveParents(db)
    ensures AllHaveParents(Last(db, Phase1(ext, db)))
  {
    RowsHaveParents(ext.groups, |ext.groups|);
    assert HasParents(ChunkedBatch(ext));
  }

  method RunChunking(session: Session, w: World) returns (chunked: bool)
    requires Clean(session) && AllHaveParents(session.committed)
    modifies session
    ensures Clean(session) && AllHaveParents(session.committed) && chunked == !YieldsNothing(w.ext)
    ensures session.log == old(session.log) + Chunk1(w, old(session.committed))
    ensures session.committed == Last(old(session.committed), Chunk1(w, old(session.committed)))
  {
    hide Phase1;
    Begin(session, InChunking);
    ghost var begun := session.committed;
    Phase1KeepsParents(w.ext, begun);
    chunked := Phase1Chunking(session, w.ext);
    Associative(old(session.log), [begun], Phase1(w.ext, begun));
  }

  method RunSummarization(session: Session, w: World) returns (summary: Summary)
    requires Readable(w) && Clean(session) && AllHaveParents(session.committed)
    modifies session
    ensures Clean(session) && AllHaveParents(session.committed)
    ensures summary == SummaryFor(w, old(session.committed).(phase := InSummarization))
    ensures session.log == old(session.log) + Summarize2(w, old(session.committed))
    ensures session.committed == Last(old(session.committed), Summarize2(w, old(session.committed)))
  {
    hide SummaryFor;
    Begin(session, InSummarization);
    ghost var begun := session.committed;
    summary := Phase2Summarization(session, w);
    Associative(old(session.log), [begun], Phase2(w, begun));
  }

  method RunEnrichment(session: Session, w: World, sum: Summary)
    requires Readable(w) && Clean(session) && AllHaveParents(session.committed)
    modifies session
    ensures Clean(session)
    ensures session.log == old(session.log) + Enrich3(w, sum, old(session.committed))
    ensures session.committed == Last(old(session.committed), Enrich3(w, sum, old(session.committed)))
  {
    hide Phase3;
    Begin(session, InEnrichment);
    ghost var begun := session.committed;
    Phase3Enrichment(session, w, sum);
    Associative(old(session.log), [begun], Phase3(w, sum, begun, 0));
  }

  method RunEmbedding(session: Session, w: World)
    requires Readable(w) && Clean(session)
    modifies session
    ensures Clean(session)
    ensures session.log == old(session.log) + Embed4(w, old(session.committed))
    ensures session.committed == Last(old(session.committed), Embed4(w, old(session.committed)))
  {
    hide Phase4;
    Begin(session, InEmbedding);
    ghost var begun := session.committed;
    Phase4Embedding(session, w);
    Associative(old(session.log), [begun], Phase4(w, begun));
  }

  /** Summarization, enrichment, embedding and the end, as far as the flags read at the start leave them to do. */
  method RunRemaining(session: Session, w: World, summary: Option<Summary>, enriched: bool, embedded: bool,
    ghost start: Db)
    requires Readable(w) && Clean(session) && AllHaveParents(session.committed)
    requires summary == start.summary && enriched == AllEnriched(start.batches)
             && embedded == AllEmbedded(start.batches)
    modifies session
    ensures Clean(session)
    ensures session.log == old(session.log) + AfterChunking(w, start, old(session.committed))
    ensures session.committed == Last(old(session.committed), AfterChunking(w, start, old(session.committed)))
  {
    hide Summarize2, Enrich3, Embed4, Finish, SummaryFor, AllEnriched, AllEmbedded, HasParents;
    ghost var db := session.committed;
    ghost var two: seq<Db>, three: seq<Db>, four: seq<Db> := [], [], [];
    var sum: Summary;
    if summary.None? {
      two := Summarize2(w, db);
      sum := RunSummarization(session, w);
    } else {
      sum := summary.value;
    }
    ghost var db2 := session.committed;
    if !enriched {
      three := Enrich3(w, sum, db2);
      RunEnrichment(session, w, sum);
    }
    ghost var db3 := session.committed;
    if !embedded {
      four := Embed4(w, db3);
      RunEmbedding(session, w);
    }
    ghost var db4 := session.committed;
    assert session.log == old(session.log) + two + three + four;
    assert AfterChunking(w, start, db) == two + three + four + Finish(db4);
    Complete(session);
    Regroup(old(session.log), two, three, four, Finish(db4));
    LastOfPhases(db, two, three, four, Finish(db4));
  }

  lemma Regroup(log: seq<Db>, a: seq<Db>, b: seq<Db>, c: seq<Db>, d: seq<Db>)
    ensures log + a + b + c + d == log + (a + b + c + d)
  {
  }

  lemma LastOfPhases(db: Db, a: seq<Db>, b: seq<Db>, c: seq<Db>, d: seq<Db>)
    ensures Last(db, a + b + c + d) == Last(Last(Last(Last(db, a), b), c), d)
  {
    LastAppend(db, a + b + c, d);
    LastAppend(db, a + b, c);
    LastAppend(db, a, b);
  }

  /** `process_file` on a session that has nothing uncommitted. */
  method ProcessFile(session: Session, w: World)
    requires Readable(w) && Clean(session) && AllHaveParents(session.committed)
    modifies session
    ensures Clean(session)
    ensures session.log == old(session.log) + Commits(w, old(session.committed))
    ensures session.committed == Last(old(session.committed), Commits(w, old(session.committed)))
  {
    hide Chunk1, AfterChunking, HasParents, AllChunked, AllEnriched, AllEmbedded, YieldsNothing;
    ghost var db := session.committed;
    session.working := session.working.(status := Processing);
    session.Commit();
    ghost var start := session.committed;
    var batches, summary := session.working.batches, session.working.summary;
    var chunked, enriched, embedded := AllChunked(batches), AllEnriched(batches), AllEmbedded(batches);
    ghost var one: seq<Db> := [];
    if !chunked {
      one := Chunk1(w, start);
      var found := RunChunking(session, w);
      if !found {
        assert Commits(w, db) == [start] + one + [];
        Regroup(old(session.log), [start], one, [], []);
        LastOfPhases(db, [start], one, [], []);
        return;
      }
    }
    ghost var db1 := session.committed;
    RunRemaining(session, w, summary, enriched, embedded, start);
    ghost var rest := AfterChunking(w, start, db1);
    assert Commits(w, db) == [start] + one + rest;
    Regroup(old(session.log), [start], one, rest, []);
    LastOfPhases(db, [start], one, rest, []);
  }

  /** What becomes of a run that raised after its first commit. */
  method HandleError(session: Session)
    modifies session
    ensures session.committed == Cut(old(session.committed), 1, Raised)
    ensures session.committed == old(session.committed).(status := Failed, retries := old(session.committed).retries + 1)
    ensures Clean(session) && session.log == old(session.log) + [session.committed]
  {
    session.Rollback();
    session.working := session.working.(status := Failed, retries := session.working.retries + 1);
    session.Commit();
  }

  /** The worker's handlers: for the timeout, and for what `process_file` did not catch. */
  method HandleInWorker(session: Session)
    modifies session
    ensures session.committed == Cut(old(session.committed), 0, Raised) == Cut(old(session.committed), 0, TimedOut)
    ensures session.committed == old(session.committed).(status := Failed)
    ensures Clean(session) && (session.log == old(session.log) || session.log == old(session.log) + [session.committed])
  {
    session.Rollback();
    if session.working.status != Failed {
      session.working := session.working.(status := Failed);
      session.Commit();
    }
  }
}
