/** What can be relied on in every state that any history of runs commits. */
module Guarantees {
  import opened Sequences
  import opened Statuses
  import opened Rows
  import Hierarchy
  import opened Enriching
  import opened Embedding
  import opened Stages
  import opened Ingest
  import opened Steps

  /** A file that has no batch yet, or whose batches are freshly chunked, and that has no summary. */
  ghost predicate IsStart(db: Db) {
    && db.status != Ready && db.completed == 0 && db.summary.None?
    && forall i :: 0 <= i < |db.batches| ==> Fresh(db.batches[i])
  }

  /** The database after a run that nothing cuts. */
  function Uncut(w: World, db: Db): Db
    requires Readable(w)
  {
    Last(db, Commits(w, db))
  }

  lemma StartInOrder(start: Db)
    requires IsStart(start)
    ensures PhasesInOrder(start)
  {
    forall i | 0 <= i < |start.batches|
      ensures WellChunked(start.batches[i])
      ensures start.batches[i].enrichment == BatchPending && start.batches[i].embedding == BatchPending
    {
      assert Fresh(start.batches[i]);
      assert forall k :: 0 <= k < |start.batches[i].chunks| ==> Bare(start.batches[i].chunks[k], k);
    }
  }

  // ------------------------------------------------------ one more event

  lemma CutInOrder(db: Db, k: nat, ending: Ending)
    requires PhasesInOrder(db)
    ensures var q := Cut(db, k, ending);
            PhasesInOrder(q) && MeasureOf(q) == MeasureOf(db) && q.batches == db.batches && q.summary == db.summary
  {
    hide WellChunked, EmbeddedCount;
  }

  lemma AttemptIs(db: Db, w: World, k: nat, ending: Ending) returns (n: nat)
    requires Readable(w)
    ensures n <= |Commits(w, db)| && n <= k
    ensures After(db, Attempt(w, k, ending)) == Cut(Last(db, Commits(w, db)[..n]), n, ending)
    ensures k <= |Commits(w, db)| ==> n == k
  {
    hide Commits;
    n := if k < |Commits(w, db)| then k else |Commits(w, db)|;
  }

  lemma AfterInOrder(db: Db, e: Event)
    requires PhasesInOrder(db) && (e.Attempt? ==> Readable(e.world))
    ensures PhasesInOrder(After(db, e)) && NotAbove(MeasureOf(After(db, e)), MeasureOf(db))
  {
    hide PhasesInOrder, Commits, RunEnded, After, MeasureOf, NotAbove;
    SameMeasure(MeasureOf(db));
    match e
    case Requeue =>
      RequeueInOrder(db);
    case Attempt(w, k, ending) =>
      RunTrail(w, db);
      var n := AttemptIs(db, w, k, ending);
      var states := Commits(w, db);
      if n > 0 {
        TrailFalls(w, db, states, n - 1);
        assert Last(db, states[..n]) == states[n - 1];
      }
      CutInOrder(Last(db, states[..n]), n, ending);
  }

  lemma SameMeasure(m: Measure)
    ensures NotAbove(m, m)
  {
  }

  lemma RequeueInOrder(db: Db)
    requires PhasesInOrder(db)
    ensures var q := After(db, Requeue);
            PhasesInOrder(q) && MeasureOf(q) == MeasureOf(db) && q.batches == db.batches && q.summary == db.summary
  {
    hide WellChunked, EmbeddedCount, Commits;
  }

  // ------------------------------------------------------ phases and progress

  /** The order of the phases holds in every state that any history commits, whatever the services answer. */
  lemma {:induction false} PhasesStayInOrder(start: Db, events: seq<Event>)
    requires IsStart(start) && AllReadable(events)
    ensures PhasesInOrder(History(start, events))
  {
    hide PhasesInOrder, After, IsStart, MeasureOf;
    if events == [] {
      StartInOrder(start);
    } else {
      PhasesStayInOrder(start, events[..|events| - 1]);
      AfterInOrder(History(start, events[..|events| - 1]), events[|events| - 1]);
    }
  }

  /** What is left to do never grows, whatever happens next. */
  lemma MeasureNeverGrows(start: Db, events: seq<Event>, e: Event)
    requires IsStart(start) && AllReadable(events + [e])
    ensures AllReadable(events)
    ensures NotAbove(MeasureOf(History(start, events + [e])), MeasureOf(History(start, events)))
  {
    hide PhasesInOrder, After, IsStart, MeasureOf, Readable;
    ReadableFront(events, e);
    PhasesStayInOrder(start, events);
    AfterInOrder(History(start, events), e);
    assert (events + [e])[..|events|] == events;
  }

  lemma ReadableFront(events: seq<Event>, e: Event)
    requires AllReadable(events + [e])
    ensures AllReadable(events) && (e.Attempt? ==> Readable(e.world))
  {
    hide Readable;
    var all := events + [e];
    assert all[|events|] == e && forall i :: 0 <= i < |events| ==> all[i] == events[i];
  }

  /** Nor does it grow from one commit of a run to a later one. */
  lemma MeasureFallsAlongRun(start: Db, events: seq<Event>, w: World, j: nat, k: nat)
    requires IsStart(start) && AllReadable(events) && Readable(w)
    ensures var commits := Commits(w, History(start, events));
            j < k < |commits| ==> NotAbove(MeasureOf(commits[k]), MeasureOf(commits[j]))
  {
    hide *;
    var db := History(start, events);
    PhasesStayInOrder(start, events);
    RunTrail(w, db);
    if j < k < |Commits(w, db)| {
      TrailPair(w, db, Commits(w, db), j, k);
    }
  }

  /**
   * From every state that can be reached, a run that is not cut leaves nothing to do and the file
   * READY, unless it has no batch and the chunker finds nothing in it; then it is FAILED.
   */
  lemma UncutRunFinishes(start: Db, events: seq<Event>, w: World)
    requires IsStart(start) && AllReadable(events) && Readable(w)
    ensures var db := History(start, events);
            var q := Uncut(w, db);
            if db.batches == [] && YieldsNothing(w.ext)
            then q.status == Failed && q.phase == InChunking && q.batches == []
            else q.status == Ready && MeasureOf(q) == Measure(0, 0, 0, 0)
  {
    hide PhasesInOrder, IsStart, Commits, History, YieldsNothing;
    PhasesStayInOrder(start, events);
    var db := History(start, events);
    RunTrail(w, db);
    if !(db.batches == [] && YieldsNothing(w.ext)) {
      NothingLeft(Uncut(w, db).batches);
    }
  }

  // ------------------------------------------------------ the count of completed batches

  /**
   * The exact condition for the count, from every state in which the phases are in order: a run
   * that ends READY leaves `completed_batches` equal to the number of embedded batches if and only
   * if not all batches were embedded when it began, or the count was right already.
   */
  lemma CountExactly(w: World, db: Db)
    requires Readable(w) && PhasesInOrder(db)
    ensures var q := Uncut(w, db);
            q.status == Ready ==>
              (q.completed == EmbeddedCount(q.batches) <==> !AllEmbedded(db.batches) || db.completed == |db.batches|)
  {
    hide PhasesInOrder, Commits, YieldsNothing;
    RunTrail(w, db);
    var q := Uncut(w, db);
    if q.status == Ready {
      NothingLeft(q.batches);
      NoneEmbedded([]);
    }
  }

  // ------------------------------------------------------ where the rows come from

  /** The worlds that the runs of a history saw. */
  function WorldsOf(events: seq<Event>): seq<World> {
    if events == [] then []
    else
      var e := events[|events| - 1];
      WorldsOf(events[..|events| - 1]) + if e.Attempt? then [e.world] else []
  }

  /** The batch as it was chunked, the run that enriched it, and the run that embedded it. */
  datatype Origin = Origin(base: Batch, enricher: World, embedder: World)

  ghost predicate IsBase(ws: seq<World>, start: Db, i: nat, base: Batch) {
    && Fresh(base)
    && if start.batches == [] then i == 0 && exists w :: w in ws && base == ChunkedBatch(w.ext)
       else i < |start.batches| && base == start.batches[i]
  }

  function WithoutVector(a: AliasRow): AliasRow {
    a.(short := None)
  }

  function Bared(c: ChunkRow): ChunkRow {
    c.(short := None, full := None)
  }

  /** b has the rows of e, whatever its vectors. */
  predicate SameRows(b: Batch, e: Batch) {
    && b.parents == e.parents && b.index == e.index && b.count == e.count
    && Map(Bared, b.chunks) == Map(Bared, e.chunks) && Map(WithoutVector, b.aliases) == Map(WithoutVector, e.aliases)
  }

  function EnrichedIn(w: World, sum: Summary, i: nat, base: Batch): Batch {
    EnrichedBatch(w.ext, sum, base, OrderOr(w.parentOrder(i, |base.parents|), |base.parents|))
  }

  /** Batch i came from o.base: unchanged but for its status, or enriched once by one run, and indexed by one run. */
  ghost predicate Evolved(ws: seq<World>, start: Db, summary: Option<Summary>, i: nat, o: Origin, b: Batch) {
    && IsBase(ws, start, i, o.base)
    && (if b.enrichment != BatchCompleted then b == o.base.(enrichment := b.enrichment)
        else summary.Some? && o.enricher in ws && SameRows(b, EnrichedIn(o.enricher, summary.value, i, o.base)))
    && (b.embedding == BatchCompleted ==> o.embedder in ws && IndexedBy(o.embedder, i, b))
  }

  ghost predicate Traced(ws: seq<World>, start: Db, summary: Option<Summary>, i: nat, b: Batch) {
    exists o :: Evolved(ws, start, summary, i, o, b)
  }

  ghost predicate AllTraced(ws: seq<World>, start: Db, db: Db) {
    && (start.batches != [] ==> |db.batches| == |start.batches|)
    && forall i :: 0 <= i < |db.batches| ==> Traced(ws, start, db.summary, i, db.batches[i])
  }

  lemma MoreWorlds(ws: seq<World>, more: seq<World>, start: Db, db: Db)
    requires AllTraced(ws, start, db) && forall w :: w in ws ==> w in more
    ensures AllTraced(more, start, db)
  {
    hide SameRows, EnrichedIn, IndexedBy, Fresh;
    forall i | 0 <= i < |db.batches| ensures Traced(more, start, db.summary, i, db.batches[i]) {
      assert Traced(ws, start, db.summary, i, db.batches[i]);
      var o :| Evolved(ws, start, db.summary, i, o, db.batches[i]);
      assert Evolved(more, start, db.summary, i, o, db.batches[i]);
    }
  }

  lemma {:induction false} NoVectorYet(ext: External, contents: seq<string>, n: nat)
    requires n <= |contents|
    ensures Map(WithoutVector, AliasesTo(ext, contents, n)) == AliasesTo(ext, contents, n)
  {
    hide Questions;
    if n > 0 {
      NoVectorYet(ext, contents, n - 1);
      var front, last := AliasesTo(ext, contents, n - 1), AliasRows(ext, n - 1, Questions(ext, contents[n - 1]));
      assert Map(WithoutVector, last) == last;
      assert Map(WithoutVector, front + last) == Map(WithoutVector, front) + Map(WithoutVector, last);
    }
  }

  lemma EnrichedHasNoVectors(w: World, sum: Summary, i: nat, base: Batch)
    requires Fresh(base)
    ensures var started := base.(enrichment := BatchProcessing); EnrichedIn(w, sum, i, started) == EnrichedIn(w, sum, i, base)
  {
    hide SlotPrefixes, AllAliases, AllSlots;
  }

  lemma ChunksBared(ext: External, chunks: seq<ChunkRow>)
    ensures Map(Bared, EmbeddedChunks(ext, chunks)) == Map(Bared, chunks)
  {
    hide EmbeddedChunks, ChunkAnswer;
    ChunksGetAnswers(ext, chunks);
  }

  lemma AliasesBared(ext: External, aliases: seq<AliasRow>, order: seq<nat>)
    requires IsOrder(order, |aliases|)
    ensures Map(WithoutVector, EmbeddedAliases(ext, aliases, order)) == Map(WithoutVector, aliases)
  {
    hide EmbeddedAliases, AliasAnswer;
    AliasesGetAnswers(ext, aliases, order);
    forall k | 0 <= k < |aliases|
      ensures WithoutVector(EmbeddedAliases(ext, aliases, order)[k]) == WithoutVector(aliases[k])
    {
      OrderCovers(order, |aliases|, k);
      var j :| 0 <= j < |order| && order[j] == k;
      assert EmbeddedAliases(ext, aliases, order)[order[j]]
          == PutAnswer(aliases[order[j]], AliasAnswer(ext, aliases, order, j), PutAlias);
    }
  }

  lemma EmbeddingKeepsRows(w: World, i: nat, b: Batch, c: Batch, e: Batch)
    requires EmbeddingStep(w, i, b, c) && SameRows(b, e)
    ensures SameRows(c, e) && c.enrichment == BatchCompleted
  {
    hide IndexedBy, EmbeddedChunks, EmbeddedAliases;
    ChunksBared(w.ext, b.chunks);
    AliasesBared(w.ext, b.aliases, OrderOr(w.aliasOrder(i, |b.aliases|), |b.aliases|));
  }

  lemma EnrichedRows(w: World, sum: Summary, i: nat, base: Batch)
    requires Fresh(base)
    ensures var e := EnrichedIn(w, sum, i, base);
            e.enrichment == BatchCompleted && e.embedding == BatchPending && SameRows(e, e)
  {
    hide SlotPrefixes, AllAliases, AllSlots;
  }

  lemma StepTraced(ws: seq<World>, start: Db, w: World, summary: Option<Summary>, i: nat, b: Batch, c: Batch)
    requires w in ws && Traced(ws, start, summary, i, b) && BatchStep(w, i, summary, b, c)
    ensures Traced(ws, start, summary, i, c)
  {
    hide SameRows, EnrichedIn, IndexedBy, IsBase;
    var o :| Evolved(ws, start, summary, i, o, b);
    if c == b || (b.enrichment != BatchCompleted && c == b.(enrichment := BatchProcessing)) {
      BaseIsFresh(ws, start, i, o.base);
      assert Evolved(ws, start, summary, i, o, c);
    } else if EnrichmentStep(w, i, summary, b, c) {
      BaseIsFresh(ws, start, i, o.base);
      EnrichedHasNoVectors(w, summary.value, i, o.base);
      EnrichedInIs(w, summary.value, i, b, c);
      EnrichedRows(w, summary.value, i, o.base);
      assert Evolved(ws, start, summary, i, o.(enricher := w), c);
    } else {
      var p := if c.embedding == BatchCompleted then o.(embedder := w) else o;
      EmbeddingKeepsRows(w, i, b, c, EnrichedIn(o.enricher, summary.value, i, o.base));
      assert Evolved(ws, start, summary, i, p, c);
    }
  }

  lemma EnrichedInIs(w: World, sum: Summary, i: nat, b: Batch, c: Batch)
    requires EnrichmentStep(w, i, Some(sum), b, c)
    ensures c == EnrichedIn(w, sum, i, b)
  {
    hide EnrichedBatch;
  }

  lemma BaseIsFresh(ws: seq<World>, start: Db, i: nat, base: Batch)
    requires IsBase(ws, start, i, base)
    ensures Fresh(base) && base.enrichment == BatchPending && base.embedding == BatchPending
  {
  }

  lemma DbStepTraced(ws: seq<World>, start: Db, w: World, db: Db, next: Db)
    requires w in ws && PhasesInOrder(db) && AllTraced(ws, start, db) && DbStep(w, db, next)
    ensures AllTraced(ws, start, next)
  {
    hide BatchStep, SameRows, EnrichedIn, IndexedBy, Fresh, WellChunked, EmbeddedCount, ChunkedBatch, YieldsNothing;
    if next.summary == db.summary && |next.batches| == |db.batches| && next.batches != db.batches {
      forall i | 0 <= i < |next.batches| ensures Traced(ws, start, next.summary, i, next.batches[i]) {
        hide Traced;
        StepTraced(ws, start, w, db.summary, i, db.batches[i], next.batches[i]);
      }
    } else if next.batches == db.batches {
      forall i | 0 <= i < |next.batches| ensures Traced(ws, start, next.summary, i, next.batches[i]) {
        assert Traced(ws, start, db.summary, i, db.batches[i]);
        var o :| Evolved(ws, start, db.summary, i, o, db.batches[i]);
        assert Evolved(ws, start, next.summary, i, o, next.batches[i]);
      }
    } else {
      var base := ChunkedBatch(w.ext);
      ChunkedIsFresh(w.ext);
      FreshIsPending(base);
      assert IsBase(ws, start, 0, base);
      assert Evolved(ws, start, next.summary, 0, Origin(base, w, w), base);
      assert Traced(ws, start, next.summary, 0, next.batches[0]);
    }
  }

  lemma FreshIsPending(b: Batch)
    requires Fresh(b)
    ensures b.enrichment == BatchPending && b.embedding == BatchPending
  {
  }

  lemma {:induction false} TrailTraced(ws: seq<World>, start: Db, w: World, db: Db, states: seq<Db>, k: nat)
    requires w in ws && PhasesInOrder(db) && AllTraced(ws, start, db) && Trail(w, db, states) && k < |states|
    ensures AllTraced(ws, start, states[k])
    decreases k
  {
    hide DbStep, PhasesInOrder, AllTraced;
    DbStepTraced(ws, start, w, db, states[0]);
    if k > 0 {
      TrailTraced(ws, start, w, states[0], states[1..], k - 1);
    }
  }

  lemma StartTraced(ws: seq<World>, start: Db)
    requires IsStart(start)
    ensures AllTraced(ws, start, start)
  {
    hide Fresh;
    forall i | 0 <= i < |start.batches| ensures Traced(ws, start, start.summary, i, start.batches[i]) {
      var b := start.batches[i];
      FreshIsPending(b);
      AnyWorld(ws, start, i, b);
    }
  }

  lemma AnyWorld(ws: seq<World>, start: Db, i: nat, b: Batch)
    requires IsBase(ws, start, i, b) && b.enrichment == BatchPending && b.embedding == BatchPending
    ensures Traced(ws, start, None, i, b)
  {
    var any: World :| true;
    assert Evolved(ws, start, None, i, Origin(b, any, any), b);
  }

  lemma {:induction false} HistoryTraced(start: Db, events: seq<Event>)
    requires IsStart(start) && AllReadable(events)
    ensures AllTraced(WorldsOf(events), start, History(start, events))
  {
    hide PhasesInOrder, IsStart, AllTraced, Trail, Commits, RunEnded, After;
    var ws := WorldsOf(events);
    if events == [] {
      StartTraced(ws, start);
    } else {
      var front, e := events[..|events| - 1], events[|events| - 1];
      var db := History(start, front);
      HistoryTraced(start, front);
      PhasesStayInOrder(start, front);
      MoreWorlds(WorldsOf(front), ws, start, db);
      match e
      case Requeue =>
        RequeueInOrder(db);
        SameTraced(ws, start, db, After(db, e));
      case Attempt(w, k, ending) =>
        assert w in ws by {
          assert ws[|ws| - 1] == w;
        }
        RunTrail(w, db);
        var n := AttemptIs(db, w, k, ending);
        var states := Commits(w, db);
        var cut := Last(db, states[..n]);
        if n > 0 {
          TrailTraced(ws, start, w, db, states, n - 1);
          TrailFalls(w, db, states, n - 1);
          assert cut == states[n - 1];
        }
        CutInOrder(cut, n, ending);
        SameTraced(ws, start, cut, After(db, e));
    }
  }

  lemma SameTraced(ws: seq<World>, start: Db, db: Db, next: Db)
    requires AllTraced(ws, start, db) && next.batches == db.batches && next.summary == db.summary
    ensures AllTraced(ws, start, next)
  {
    hide Traced;
  }

  // ------------------------------------------------------ the parents of chunks

  lemma EvolvedHasParents(ws: seq<World>, start: Db, summary: Option<Summary>, i: nat, o: Origin, b: Batch)
    requires Evolved(ws, start, summary, i, o, b)
    ensures HasParents(b)
  {
    hide IndexedBy, SameRows, EnrichedIn, ChunkedBatch;
    FreshHasParents(o.base);
    if b.enrichment == BatchCompleted {
      EnrichedInHasParents(o.enricher, summary.value, i, o.base);
      SameRowsSameParents(b, EnrichedIn(o.enricher, summary.value, i, o.base));
    }
  }

  lemma FreshHasParents(b: Batch)
    requires Fresh(b)
    ensures HasParents(b)
  {
  }

  lemma EnrichedInHasParents(w: World, sum: Summary, i: nat, base: Batch)
    requires HasParents(base)
    ensures HasParents(EnrichedIn(w, sum, i, base))
  {
    hide EnrichedBatch, HasParents;
    EnrichedHasParents(w.ext, sum, base, OrderOr(w.parentOrder(i, |base.parents|), |base.parents|));
  }

  lemma SameRowsSameParents(b: Batch, e: Batch)
    requires SameRows(b, e) && HasParents(e)
    ensures HasParents(b)
  {
    SameBared(b.chunks, e.chunks);
  }

  /** In every state of every history each chunk has its parent in its batch, as the methods of a run require. */
  lemma HistoryHasParents(start: Db, events: seq<Event>)
    requires IsStart(start) && AllReadable(events)
    ensures AllHaveParents(History(start, events))
  {
    hide IsStart, History, Evolved, HasParents;
    HistoryTraced(start, events);
    var db := History(start, events);
    forall i | 0 <= i < |db.batches| ensures HasParents(db.batches[i]) {
      assert Traced(WorldsOf(events), start, db.summary, i, db.batches[i]);
      var o :| Evolved(WorldsOf(events), start, db.summary, i, o, db.batches[i]);
      EvolvedHasParents(WorldsOf(events), start, db.summary, i, o, db.batches[i]);
    }
  }

  // ------------------------------------------------------ the index

  /**
   * For any services: a batch marked as embedded holds, in each row, the vector at its place in the
   * answer that one embedder gave for the rows as they now are. Cuts and repeats leave no vector out
   * of date.
   */
  lemma EmbeddedStaysIndexed(start: Db, events: seq<Event>, i: nat)
    requires IsStart(start) && AllReadable(events)
    ensures var db := History(start, events);
            i < |db.batches| && db.batches[i].embedding == BatchCompleted ==>
              exists w :: w in WorldsOf(events) && IndexedBy(w, i, db.batches[i])
  {
    hide IsStart, History, IndexedBy, SameRows, EnrichedIn, IsBase;
    HistoryTraced(start, events);
    var db := History(start, events);
    if i < |db.batches| && db.batches[i].embedding == BatchCompleted {
      assert Traced(WorldsOf(events), start, db.summary, i, db.batches[i]);
      var o :| Evolved(WorldsOf(events), start, db.summary, i, o, db.batches[i]);
      assert o.embedder in WorldsOf(events);
    }
  }

  /** The embedder answers each request with at least one vector per text. */
  ghost predicate AnswersEachText(ext: External) {
    forall texts, inputType, contentType :: |ext.embed(texts, inputType, contentType)| >= |texts|
  }

  /** Every chunk has the vector at its place in the answer to its slice; every alias has some vector. */
  ghost predicate Indexed(ext: External, b: Batch) {
    && (forall k :: 0 <= k < |b.chunks| ==>
          ChunkAnswer(ext, b.chunks, k).Some? && HasChunkAnswer(b.chunks[k], ChunkAnswer(ext, b.chunks, k)))
    && (forall k :: 0 <= k < |b.aliases| ==> b.aliases[k].short.Some?)
  }

  lemma IndexedByIsIndexed(w: World, i: nat, b: Batch)
    requires IndexedBy(w, i, b) && AnswersEachText(w.ext)
    ensures Indexed(w.ext, b)
  {
    hide AnswersEachText, ChunkAnswer, AliasAnswer, HasChunkAnswer, HasAliasAnswer;
    var order := OrderOr(w.aliasOrder(i, |b.aliases|), |b.aliases|);
    forall k | 0 <= k < |b.chunks| ensures ChunkAnswer(w.ext, b.chunks, k).Some? {
      ChunkIsAnswered(w.ext, b.chunks, k);
    }
    forall k | 0 <= k < |b.aliases| ensures b.aliases[k].short.Some? {
      OrderCovers(order, |b.aliases|, k);
      var j :| 0 <= j < |order| && order[j] == k;
      AliasIsAnswered(w.ext, b.aliases, order, j);
      HasShort(b.aliases[order[j]], AliasAnswer(w.ext, b.aliases, order, j));
    }
  }

  lemma HasShort(a: AliasRow, answer: Option<Vector>)
    requires HasAliasAnswer(a, answer) && answer.Some?
    ensures a.short.Some?
  {
    hide Truncate;
  }

  lemma ChunkIsAnswered(ext: External, chunks: seq<ChunkRow>, k: nat)
    requires AnswersEachText(ext) && k < |chunks|
    ensures ChunkAnswer(ext, chunks, k).Some?
  {
    hide ChunkText, ChunkRequest;
    var s := SliceStart(k);
    ChunkRequestIs(ext, chunks, s);
    var texts := Map(ChunkText, chunks[s..Min(s + BATCH_SIZE, |chunks|)]);
    assert |ext.embed(texts, "document", chunks[s].contentType)| >= |texts|;
  }

  lemma AliasIsAnswered(ext: External, aliases: seq<AliasRow>, order: seq<nat>, j: nat)
    requires AnswersEachText(ext) && IsOrder(order, |aliases|) && j < |aliases|
    ensures AliasAnswer(ext, aliases, order, j).Some?
  {
    hide AliasText, AliasRequest;
    var s := SliceStart(j);
    AliasRequestIs(ext, aliases, order, s);
    var texts := Map(AliasText, Pick(aliases, order[s..Min(s + BATCH_SIZE, |order|)]));
    assert |ext.embed(texts, "query", "text")| >= |texts|;
  }

  ghost predicate AllServe(ext: External, events: seq<Event>) {
    forall w :: w in WorldsOf(events) ==> w.ext == ext
  }

  /**
   * With an embedder that answers each request with a vector per text: whenever a batch is marked as
   * embedded, every chunk and alias has its vector, that of a chunk computed from its current prefix
   * and content in its slice.
   */
  lemma EveryTextIsIndexed(ext: External, start: Db, events: seq<Event>, i: nat)
    requires IsStart(start) && AllReadable(events) && AllServe(ext, events) && AnswersEachText(ext)
    ensures var db := History(start, events);
            i < |db.batches| && db.batches[i].embedding == BatchCompleted ==> Indexed(ext, db.batches[i])
  {
    hide IsStart, History, IndexedBy, Indexed, AnswersEachText;
    EmbeddedStaysIndexed(start, events, i);
    var db := History(start, events);
    if i < |db.batches| && db.batches[i].embedding == BatchCompleted {
      var w :| w in WorldsOf(events) && IndexedBy(w, i, db.batches[i]);
      IndexedByIsIndexed(w, i, db.batches[i]);
    }
  }

  /**
   * The chunk has the vector of its prefix, a line break and its content, or of its content if it has no
   * prefix, asked for with the content type of the first chunk of its slice; and its first 256 places.
   */
  predicate HasOwnVector(ext: External, chunks: seq<ChunkRow>, k: nat)
    requires k < |chunks|
  {
    var c, first := chunks[k], chunks[k - k % 64];
    var text := if c.prefix == "" then c.content else c.prefix + "\n" + c.content;
    var answer := ext.embed([text], "document", first.contentType);
    && |answer| == 1 && c.full == Some(answer[0])
    && c.short == Some(answer[0][..Min(256, |answer[0]|)])
  }

  /**
   * If the embedder also treats each text on its own: the vector of every chunk is that of its current
   * prefix, a line break and its content, or of its content if it has no prefix.
   */
  lemma EveryTextHasItsVector(ext: External, start: Db, events: seq<Event>, i: nat)
    requires IsStart(start) && AllReadable(events) && AllServe(ext, events) && OneVectorPerText(ext)
    ensures var db := History(start, events);
            i < |db.batches| && db.batches[i].embedding == BatchCompleted ==>
              forall k :: 0 <= k < |db.batches[i].chunks| ==> HasOwnVector(ext, db.batches[i].chunks, k)
  {
    hide IsStart, History, IndexedBy, OneVectorPerText, HasOwnVector;
    EmbeddedStaysIndexed(start, events, i);
    var db := History(start, events);
    if i < |db.batches| && db.batches[i].embedding == BatchCompleted {
      var w :| w in WorldsOf(events) && IndexedBy(w, i, db.batches[i]);
      TextsIndexed(w, i, db.batches[i]);
    }
  }

  lemma TextsIndexed(w: World, i: nat, b: Batch)
    requires IndexedBy(w, i, b) && OneVectorPerText(w.ext)
    ensures forall k :: 0 <= k < |b.chunks| ==> HasOwnVector(w.ext, b.chunks, k)
  {
    hide ChunkAnswer, AliasAnswer, ChunkText, OneVectorPerText;
    forall k | 0 <= k < |b.chunks| ensures HasOwnVector(w.ext, b.chunks, k) {
      OwnChunkAnswer(w.ext, b.chunks, k);
      ChunkTextIs(b.chunks[k]);
      AskedAlone(w.ext, ChunkText(b.chunks[k]), "document", b.chunks[SliceStart(k)].contentType);
      assert HasChunkAnswer(b.chunks[k], ChunkAnswer(w.ext, b.chunks, k));
    }
  }

  /** If it treats each question on its own, every alias has the vector of its own question. */
  lemma EveryQuestionIsIndexed(ext: External, start: Db, events: seq<Event>, i: nat)
    requires IsStart(start) && AllReadable(events) && AllServe(ext, events) && QuestionsIndependent(ext)
    ensures var db := History(start, events);
            i < |db.batches| && db.batches[i].embedding == BatchCompleted ==>
              forall k :: 0 <= k < |db.batches[i].aliases| ==>
                var answer := ext.embed([db.batches[i].aliases[k].content], "query", "text");
                |answer| == 1 && db.batches[i].aliases[k].short == Some(answer[0][..Min(256, |answer[0]|)])
  {
    hide IsStart, History, IndexedBy, QuestionsIndependent;
    EmbeddedStaysIndexed(start, events, i);
    var db := History(start, events);
    if i < |db.batches| && db.batches[i].embedding == BatchCompleted {
      var w :| w in WorldsOf(events) && IndexedBy(w, i, db.batches[i]);
      QuestionsIndexed(w, i, db.batches[i]);
    }
  }

  lemma QuestionsIndexed(w: World, i: nat, b: Batch)
    requires IndexedBy(w, i, b) && QuestionsIndependent(w.ext)
    ensures forall k :: 0 <= k < |b.aliases| ==>
              var answer := w.ext.embed([b.aliases[k].content], "query", "text");
              |answer| == 1 && b.aliases[k].short == Some(answer[0][..Min(256, |answer[0]|)])
  {
    hide Answered, ChunkAnswer, AliasAnswer, HasChunkAnswer, QuestionsIndependent;
    var order := OrderOr(w.aliasOrder(i, |b.aliases|), |b.aliases|);
    forall k | 0 <= k < |b.aliases|
      ensures var answer := w.ext.embed([b.aliases[k].content], "query", "text");
              |answer| == 1 && b.aliases[k].short == Some(answer[0][..Min(256, |answer[0]|)])
    {
      OrderCovers(order, |b.aliases|, k);
      var j :| 0 <= j < |order| && order[j] == k;
      OwnAnswer(w.ext, b.aliases, order, j);
      AskedAlone(w.ext, b.aliases[k].content, "query", "text");
      assert HasAliasAnswer(b.aliases[order[j]], AliasAnswer(w.ext, b.aliases, order, j));
    }
  }

  /** What phase 4 leaves of one batch. */
  lemma EmbeddedBatchIs(w: World, db: Db, i: nat)
    requires Readable(w) && i < |db.batches| && db.batches[i].embedding != BatchCompleted
    ensures var b, done := db.batches[i], Last(db, EmbeddingCommits(w, db, i));
            var order := w.aliasOrder(i, |b.aliases|);
            && i < |done.batches| && done.batches[i].embedding == BatchCompleted && IsOrder(order, |b.aliases|)
            && done.batches[i].chunks == EmbeddedChunks(w.ext, b.chunks)
            && done.batches[i].aliases == EmbeddedAliases(w.ext, b.aliases, order)
  {
    hide ChunkCommits, AliasCommits, EmbeddedChunks, EmbeddedAliases;
    AliasOrderIsOrder(w, i, |db.batches[i].aliases|);
    var db1 := SetEmbedding(db, i, BatchProcessing);
    ChunkCommitsAre(w.ext, db1, i);
    AliasCommitsAre(w, Last(db1, ChunkCommits(w.ext, db1, i)), i);
  }

  /**
   * A batch ends up complete in any case, and with all vectors exactly if each row had one before, from
   * a run that was cut, or is reached by the answer to its slice.
   */
  lemma CompletedVectorsExactly(w: World, db: Db, i: nat)
    requires Readable(w) && i < |db.batches| && db.batches[i].embedding != BatchCompleted
    ensures
      var b, done := db.batches[i], Last(db, EmbeddingCommits(w, db, i));
      var order := w.aliasOrder(i, |b.aliases|);
      && i < |done.batches| && done.batches[i].embedding == BatchCompleted && IsOrder(order, |b.aliases|)
      && (HasAllVectors(done.batches[i]) <==>
            && (forall k :: 0 <= k < |b.chunks| ==> b.chunks[k].full.Some? || ChunkAnswer(w.ext, b.chunks, k).Some?)
            && (forall j :: 0 <= j < |b.aliases| ==>
                  b.aliases[order[j]].short.Some? || AliasAnswer(w.ext, b.aliases, order, j).Some?))
  {
    hide EmbeddingCommits, EmbeddedChunks, EmbeddedAliases, ChunkAnswer, AliasAnswer, Readable;
    var b := db.batches[i];
    EmbeddedBatchIs(w, db, i);
    ChunkVectorsExactly(w.ext, b.chunks);
    AliasVectorsExactly(w.ext, b.aliases, w.aliasOrder(i, |b.aliases|));
  }

  /** So a batch whose rows have no vector yet ends up with all of them exactly if no slice is answered short. */
  lemma FirstVectorsExactly(w: World, db: Db, i: nat)
    requires Readable(w) && i < |db.batches| && db.batches[i].embedding != BatchCompleted
    requires forall k :: 0 <= k < |db.batches[i].chunks| ==> db.batches[i].chunks[k].full.None?
    requires forall k :: 0 <= k < |db.batches[i].aliases| ==> db.batches[i].aliases[k].short.None?
    ensures
      var b, done := db.batches[i], Last(db, EmbeddingCommits(w, db, i));
      var order := w.aliasOrder(i, |b.aliases|);
      && i < |done.batches| && IsOrder(order, |b.aliases|)
      && (HasAllVectors(done.batches[i]) <==>
            ChunksAnswered(w.ext, b.chunks) && AliasesAnswered(w.ext, b.aliases, order))
  {
    hide EmbeddingCommits, EmbeddedChunks, EmbeddedAliases, ChunksAnswered, AliasesAnswered, Readable;
    var b := db.batches[i];
    EmbeddedBatchIs(w, db, i);
    FirstChunkVectors(w.ext, b.chunks);
    FirstAliasVectors(w.ext, b.aliases, w.aliasOrder(i, |b.aliases|));
  }

  predicate HasAllVectors(b: Batch) {
    && (forall k :: 0 <= k < |b.chunks| ==> b.chunks[k].full.Some?)
    && (forall k :: 0 <= k < |b.aliases| ==> b.aliases[k].short.Some?)
  }

  /** So an embedder that answers nothing leaves every chunk without a vector in a batch that is marked as embedded. */
  lemma NoVectorsStillComplete(w: World, db: Db, i: nat)
    requires Readable(w) && i < |db.batches| && db.batches[i].embedding != BatchCompleted
    requires db.batches[i].chunks != [] && forall k :: 0 <= k < |db.batches[i].chunks| ==> db.batches[i].chunks[k].full.None?
    requires forall texts, inputType, contentType :: w.ext.embed(texts, inputType, contentType) == []
    ensures var done := Last(db, EmbeddingCommits(w, db, i));
            && i < |done.batches| && done.batches[i].embedding == BatchCompleted
            && forall k :: 0 <= k < |done.batches[i].chunks| ==> done.batches[i].chunks[k].full.None?
  {
    hide EmbeddingCommits, EmbeddedChunks, EmbeddedAliases, Readable;
    EmbeddedBatchIs(w, db, i);
    ChunksGetAnswers(w.ext, db.batches[i].chunks);
  }

  // ------------------------------------------------------ exactly once

  lemma {:induction false} SameChildren(a: seq<ChunkRow>, b: seq<ChunkRow>, parent: nat, n: nat)
    requires n <= |a| == |b| && forall k :: 0 <= k < |a| ==> a[k].parent == b[k].parent
    ensures ChildIds(a, parent, n) == ChildIds(b, parent, n)
  {
    if n > 0 {
      SameChildren(a, b, parent, n - 1);
    }
  }

  lemma {:induction false} SameSlots(a: seq<ChunkRow>, b: seq<ChunkRow>, order: seq<nat>, n: nat)
    requires n <= |order| && |a| == |b| && forall k :: 0 <= k < |a| ==> a[k].parent == b[k].parent
    ensures Slots(a, order, n) == Slots(b, order, n)
  {
    hide *;
    if n == 0 {
      NoSlots(a, order);
      NoSlots(b, order);
    } else {
      SameSlots(a, b, order, n - 1);
      SameChildren(a, b, order[n - 1], |a|);
      SlotsUnfold(a, order, n);
      SlotsUnfold(b, order, n);
    }
  }

  lemma SameBared(a: seq<ChunkRow>, b: seq<ChunkRow>)
    requires Map(Bared, a) == Map(Bared, b)
    ensures |a| == |b| && forall k :: 0 <= k < |a| ==>
              a[k].parent == b[k].parent && a[k].content == b[k].content && a[k].prefix == b[k].prefix
  {
    forall k | 0 <= k < |a|
      ensures |a| == |b| && a[k].parent == b[k].parent && a[k].content == b[k].content && a[k].prefix == b[k].prefix
    {
      assert Map(Bared, a)[k] == Bared(a[k]) && Map(Bared, b)[k] == Bared(b[k]);
    }
  }

  /** The aliases that a run inserts for a batch, given the order in which it reads the parents. */
  ghost function InsertedBy(w: World, i: nat, b: Batch): seq<AliasRow> {
    var slots := AllSlots(b.chunks, OrderOr(w.parentOrder(i, |b.parents|), |b.parents|));
    SlotsInRange(b.chunks, OrderOr(w.parentOrder(i, |b.parents|), |b.parents|));
    AllAliases(w.ext, SlotContents(b.chunks, slots))
  }

  lemma InsertedRows(w: World, sum: Summary, i: nat, base: Batch, b: Batch)
    requires Fresh(base) && SameRows(b, EnrichedIn(w, sum, i, base))
    ensures Map(WithoutVector, b.aliases) == InsertedBy(w, i, b)
  {
    hide AllSlots, AllAliases, EnrichedBatch, Fresh;
    var order := OrderOr(w.parentOrder(i, |base.parents|), |base.parents|);
    var e := EnrichedIn(w, sum, i, base);
    SlotsInRange(base.chunks, order);
    SlotsInRange(b.chunks, order);
    EnrichedKeepsTexts(w.ext, sum, base, order);
    SameBared(b.chunks, e.chunks);
    SlotsAgree(b.chunks, base.chunks, order);
    var slots := AllSlots(b.chunks, order);
    assert SlotContents(b.chunks, slots) == SlotContents(base.chunks, slots);
    NoVectorInAll(w.ext, SlotContents(base.chunks, slots));
  }

  lemma EnrichedKeepsTexts(ext: External, sum: Summary, base: Batch, order: seq<nat>)
    requires Fresh(base) && IsOrder(order, |base.parents|)
    ensures var slots := AllSlots(base.chunks, order); forall j :: 0 <= j < |slots| ==> slots[j].chunk < |base.chunks|
    ensures var e := EnrichedBatch(ext, sum, base, order);
            && e.parents == base.parents && |e.chunks| == |base.chunks|
            && (forall k :: 0 <= k < |base.chunks| ==>
                  e.chunks[k].parent == base.chunks[k].parent && e.chunks[k].content == base.chunks[k].content)
            && e.aliases == AllAliases(ext, SlotContents(base.chunks, AllSlots(base.chunks, order)))
  {
    hide AllSlots, SlotPrefixes, AllAliases, ByParent;
    SlotsInRange(base.chunks, order);
    var e := EnrichedBatch(ext, sum, base, order);
    assert e.aliases == [] + AllAliases(ext, SlotContents(base.chunks, AllSlots(base.chunks, order)));
  }

  lemma SlotsAgree(a: seq<ChunkRow>, b: seq<ChunkRow>, order: seq<nat>)
    requires |a| == |b| && forall k :: 0 <= k < |a| ==> a[k].parent == b[k].parent
    ensures AllSlots(a, order) == AllSlots(b, order)
  {
    SameSlots(a, b, order, |order|);
  }

  lemma NoVectorInAll(ext: External, contents: seq<string>)
    ensures Map(WithoutVector, AllAliases(ext, contents)) == AllAliases(ext, contents)
  {
    NoVectorYet(ext, contents, |contents|);
  }

  /**
   * Whatever the services answer and in whatever order tied parents come back in each run: the
   * aliases of an enriched batch, vectors aside, are what one of the runs inserted, once; a batch that
   * is not enriched has none.
   */
  lemma AliasesAreInsertedOnce(start: Db, events: seq<Event>, i: nat)
    requires IsStart(start) && AllReadable(events)
    ensures var db := History(start, events);
            i < |db.batches| ==>
              var b := db.batches[i];
              if b.enrichment == BatchCompleted
              then exists w :: w in WorldsOf(events) && Map(WithoutVector, b.aliases) == InsertedBy(w, i, b)
              else b.aliases == []
  {
    hide IsStart, History, IndexedBy, SameRows, EnrichedIn, InsertedBy, Fresh;
    HistoryTraced(start, events);
    var db := History(start, events);
    if i < |db.batches| {
      var b := db.batches[i];
      assert Traced(WorldsOf(events), start, db.summary, i, b);
      var o :| Evolved(WorldsOf(events), start, db.summary, i, o, b);
      NoAliasYet(o.base);
      if b.enrichment == BatchCompleted {
        InsertedRows(o.enricher, db.summary.value, i, o.base, b);
      }
    }
  }

  lemma NoAliasYet(b: Batch)
    requires Fresh(b)
    ensures b.aliases == []
  {
  }

  /** The batches as they were when freshly chunked. */
  function BaseOf(ext: External, start: Db): seq<Batch> {
    if start.batches == [] then [ChunkedBatch(ext)] else start.batches
  }

  /** Row k of the batch is the one that was chunked, but for its prefix and its vectors. */
  predicate KeepsRow(base: Batch, b: Batch, k: nat)
    requires k < |b.chunks| == |base.chunks|
  {
    b.chunks[k].(prefix := base.chunks[k].prefix, short := None, full := None) == base.chunks[k]
  }

  /**
   * The rows of a batch that is, or is not, enriched: nothing was written twice, lost or misplaced. Once
   * it is, the aliases are the questions about its table chunks, and each prefix is the service's answer
   * for its own chunk, or what it was before if that answer was empty.
   */
  ghost predicate EnrichedOnce(ext: External, summary: Option<Summary>, base: Batch, b: Batch) {
    var contents := seq(|base.parents|, p requires 0 <= p < |base.parents| => base.parents[p].content);
    && b.parents == base.parents && |b.chunks| == |base.chunks|
    && (forall k :: 0 <= k < |b.chunks| ==> KeepsRow(base, b, k))
    && if b.enrichment == BatchCompleted
       then
         && Map(WithoutVector, b.aliases) == AliasesOfAll(ext, Texts(b.chunks))
         && summary.Some?
         && forall k :: 0 <= k < |b.chunks| ==>
              && base.chunks[k].parent < |contents|
              && IsNewPrefix(ext, summary.value, contents, base.chunks[k].parent, base.chunks[k].content,
                   base.chunks[k].prefix, b.chunks[k].prefix)
       else b.aliases == [] && forall k :: 0 <= k < |b.chunks| ==> b.chunks[k].prefix == base.chunks[k].prefix
  }

  lemma ProperRows(w: World, sum: Summary, i: nat, base: Batch, b: Batch)
    requires Fresh(base) && InsertionOrder(w) && SameRows(b, EnrichedIn(w, sum, i, base)) && b.enrichment == BatchCompleted
    ensures EnrichedOnce(w.ext, Some(sum), base, b)
  {
    hide AllAliases, NewPrefix, IsNewPrefix, EnrichedBatch, AliasesOfAll;
    RangeIsOrder(|base.parents|);
    assert OrderOr(w.parentOrder(i, |base.parents|), |base.parents|) == Range(|base.parents|);
    EnrichedProperly(w.ext, sum, base);
    var e := ProperlyEnriched(w.ext, sum, base);
    SameBared(b.chunks, e.chunks);
    assert Texts(b.chunks) == Texts(base.chunks);
    assert base.aliases + AllAliases(w.ext, Texts(base.chunks)) == AllAliases(w.ext, Texts(base.chunks));
    NoVectorInAll(w.ext, Texts(base.chunks));
    AllAliasesAre(w.ext, Texts(base.chunks));
    forall k | 0 <= k < |b.chunks| ensures KeepsRow(base, b, k) {
      RowKept(base, b.chunks[k], e.chunks[k], k);
    }
    OwnPrefixesAre(w.ext, sum, base);
  }

  lemma RowKept(base: Batch, c: ChunkRow, e: ChunkRow, k: nat)
    requires Fresh(base) && k < |base.chunks| && e == base.chunks[k].(prefix := e.prefix) && Bared(c) == Bared(e)
    ensures c.(prefix := base.chunks[k].prefix, short := None, full := None) == base.chunks[k]
  {
    assert Bare(base.chunks[k], k);
  }

  lemma AllAliasesAre(ext: External, contents: seq<string>)
    ensures AllAliases(ext, contents) == AliasesOfAll(ext, contents)
  {
    hide AliasesOf;
    AliasesAre(ext, contents, |contents|);
  }

  lemma OwnPrefixesAre(ext: External, sum: Summary, base: Batch)
    requires Fresh(base)
    ensures var contents := seq(|base.parents|, p requires 0 <= p < |base.parents| => base.parents[p].content);
            forall k :: 0 <= k < |base.chunks| ==>
              && base.chunks[k].parent < |contents|
              && IsNewPrefix(ext, sum, contents, base.chunks[k].parent, base.chunks[k].content,
                   base.chunks[k].prefix, OwnPrefix(ext, sum, base, k))
  {
    hide NewPrefix, IsNewPrefix;
    var contents := seq(|base.parents|, p requires 0 <= p < |base.parents| => base.parents[p].content);
    assert Map(ContentOf, base.parents) == contents;
    forall k | 0 <= k < |base.chunks|
      ensures IsNewPrefix(ext, sum, contents, base.chunks[k].parent, base.chunks[k].content,
                base.chunks[k].prefix, OwnPrefix(ext, sum, base, k))
    {
      var c := base.chunks[k];
      NewPrefixIs(ext, sum, contents, c.parent, c.content, c.prefix);
    }
  }

  lemma UnenrichedRows(ext: External, summary: Option<Summary>, base: Batch, b: Batch)
    requires Fresh(base) && b.enrichment != BatchCompleted && b == base.(enrichment := b.enrichment)
    ensures EnrichedOnce(ext, summary, base, b)
  {
    hide AliasesOf, IsNewPrefix;
    forall k | 0 <= k < |b.chunks| ensures KeepsRow(base, b, k) {
      assert Bare(base.chunks[k], k);
    }
  }

  /**
   * With parents read in insertion order: over all cut and resumed runs, each prefix is computed
   * once, from its own chunk, and each alias is inserted once, for the chunk whose text produced its
   * question.
   */
  lemma EnrichmentHappensOnce(ext: External, start: Db, events: seq<Event>, i: nat)
    requires IsStart(start) && AllReadable(events) && AllServe(ext, events)
    requires forall w :: w in WorldsOf(events) ==> InsertionOrder(w)
    ensures var db := History(start, events);
            i < |db.batches| ==> i < |BaseOf(ext, start)| && EnrichedOnce(ext, db.summary, BaseOf(ext, start)[i], db.batches[i])
  {
    hide IsStart, History, IndexedBy, SameRows, EnrichedIn, Fresh, EnrichedOnce, InsertionOrder, ChunkedBatch;
    HistoryTraced(start, events);
    var db := History(start, events);
    if i < |db.batches| {
      var b := db.batches[i];
      assert Traced(WorldsOf(events), start, db.summary, i, b);
      var o :| Evolved(WorldsOf(events), start, db.summary, i, o, b);
      assert o.base == BaseOf(ext, start)[i];
      if b.enrichment == BatchCompleted {
        ProperRows(o.enricher, db.summary.value, i, o.base, b);
      } else {
        UnenrichedRows(ext, db.summary, o.base, b);
      }
    }
  }

  /** Row j of the batch holds child j of what the chunker returned. */
  predicate HoldsChild(c: ChunkRow, child: Hierarchy.Chunk) {
    c.content == child.content && c.tokens == child.tokens && c.contentType == child.contentType
  }

  /**
   * The same over the chunker's answer, for a file that starts without batches: in every state with a
   * batch its rows are the children, one for one; a prefix is the child's own until the batch is
   * enriched, and then the service's answer, or still the child's own if the answer was empty.
   */
  lemma EnrichmentFromChunker(ext: External, start: Db, events: seq<Event>)
    requires IsStart(start) && AllReadable(events) && AllServe(ext, events) && start.batches == []
    requires forall w :: w in WorldsOf(events) ==> InsertionOrder(w)
    ensures
      var db, children := History(start, events), Hierarchy.AllChildren(ext.groups);
      var contents := seq(|ext.groups|, p requires 0 <= p < |ext.groups| => ext.groups[p].parent.content);
      db.batches != [] ==>
        var b := db.batches[0];
        && |b.chunks| == |children|
        && (forall j :: 0 <= j < |children| ==> HoldsChild(b.chunks[j], children[j]))
        && forall j :: 0 <= j < |children| ==>
             if b.enrichment != BatchCompleted then b.chunks[j].prefix == children[j].contextPrefix
             else
               && db.summary.Some? && b.chunks[j].parent < |contents|
               && IsNewPrefix(ext, db.summary.value, contents, b.chunks[j].parent, children[j].content,
                    children[j].contextPrefix, b.chunks[j].prefix)
  {
    hide IsStart, History, IsNewPrefix, ChunkedBatch, InsertionOrder, AliasesOf;
    var db := History(start, events);
    if db.batches != [] {
      EnrichmentHappensOnce(ext, start, events, 0);
      var base, b := ChunkedBatch(ext), db.batches[0];
      ChunkedBatchIs(ext);
      assert seq(|base.parents|, p requires 0 <= p < |base.parents| => base.parents[p].content)
          == seq(|ext.groups|, p requires 0 <= p < |ext.groups| => ext.groups[p].parent.content);
      forall j | 0 <= j < |b.chunks|
        ensures HoldsChild(b.chunks[j], Hierarchy.AllChildren(ext.groups)[j]) && b.chunks[j].parent == base.chunks[j].parent
      {
        assert KeepsRow(base, b, j);
      }
    }
  }

  /** So a service that always answers nothing leaves every prefix as the chunker made it. */
  lemma SilentServiceKeepsPrefixes(ext: External, start: Db, events: seq<Event>)
    requires IsStart(start) && AllReadable(events) && AllServe(ext, events) && start.batches == []
    requires forall w :: w in WorldsOf(events) ==> InsertionOrder(w)
    requires forall document, sections, neighbors, text :: ext.context(document, sections, neighbors, text) == ""
    ensures
      var db, children := History(start, events), Hierarchy.AllChildren(ext.groups);
      db.batches != [] ==>
        && |db.batches[0].chunks| == |children|
        && forall j :: 0 <= j < |children| ==> db.batches[0].chunks[j].prefix == children[j].contextPrefix
  {
    hide IsStart, History, InsertionOrder, IsNewPrefix;
    EnrichmentFromChunker(ext, start, events);
    var db, children := History(start, events), Hierarchy.AllChildren(ext.groups);
    var contents := seq(|ext.groups|, p requires 0 <= p < |ext.groups| => ext.groups[p].parent.content);
    if db.batches != [] && db.batches[0].enrichment == BatchCompleted {
      var b := db.batches[0];
      forall j | 0 <= j < |children| ensures b.chunks[j].prefix == children[j].contextPrefix {
        assert HoldsChild(b.chunks[j], children[j]) && db.summary.Some?;
        SilentAnswer(ext, db.summary.value, contents, b.chunks[j].parent, children[j].content,
          children[j].contextPrefix, b.chunks[j].prefix);
      }
    }
  }

  lemma SilentAnswer(
    ext: External, sum: Summary, contents: seq<string>, g: nat, content: string, before: string, prefix: string)
    requires g < |contents| && IsNewPrefix(ext, sum, contents, g, content, before, prefix)
    requires forall document, sections, neighbors, text :: ext.context(document, sections, neighbors, text) == ""
    ensures prefix == before
  {
  }
}
