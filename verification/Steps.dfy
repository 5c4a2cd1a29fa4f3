/**
 * What a run does to a database, whatever the services answer and in whatever order rows come back:
 * from every state in which the phases are in order, each commit keeps them in order, changes each
 * batch by one of a few steps, and leaves no more to do than before.
 */
module Steps {
  import opened Sequences
  import opened Statuses
  import opened Rows
  import opened Hierarchy
  import opened Enriching
  import opened Embedding
  import opened Stages
  import opened Ingest

  // ------------------------------------------------------ the order of the phases

  predicate WellChunked(b: Batch) {
    && b.chunking == BatchCompleted && b.count == |b.chunks|
    && forall k :: 0 <= k < |b.chunks| ==> b.chunks[k].index == k
  }

  predicate PhasesInOrder(db: Db) {
    && (forall i :: 0 <= i < |db.batches| ==> WellChunked(db.batches[i]))
    && (forall i :: 0 <= i < |db.batches| && db.batches[i].enrichment != BatchPending ==> db.summary.Some?)
    && (forall i, j :: 0 <= i < |db.batches| && 0 <= j < |db.batches| && db.batches[i].embedding != BatchPending ==>
          db.batches[j].enrichment == BatchCompleted)
    && (db.status == Ready ==>
          AllChunked(db.batches) && AllEnriched(db.batches) && AllEmbedded(db.batches)
          && db.summary.Some? && db.phase == NoPhase)
    && db.completed <= EmbeddedCount(db.batches)
  }

  // ------------------------------------------------------ what is left to do

  function Unenriched(batches: seq<Batch>): nat {
    if batches == [] then 0
    else
      Unenriched(batches[..|batches| - 1]) + if batches[|batches| - 1].enrichment == BatchCompleted then 0 else 1
  }

  function Unembedded(batches: seq<Batch>): nat {
    if batches == [] then 0
    else
      Unembedded(batches[..|batches| - 1]) + if batches[|batches| - 1].embedding == BatchCompleted then 0 else 1
  }

  datatype Measure = Measure(batchless: nat, unsummarized: nat, unenriched: nat, unembedded: nat)

  function MeasureOf(db: Db): Measure {
    var batchless, unsummarized := if db.batches == [] then 1 else 0, if db.summary.None? then 1 else 0;
    Measure(batchless, unsummarized, Unenriched(db.batches), Unembedded(db.batches))
  }

  /** The lexicographic order. */
  predicate NotAbove(m: Measure, n: Measure) {
    if m.batchless != n.batchless then m.batchless < n.batchless
    else if m.unsummarized != n.unsummarized then m.unsummarized < n.unsummarized
    else if m.unenriched != n.unenriched then m.unenriched < n.unenriched
    else m.unembedded <= n.unembedded
  }

  lemma NotAboveTransitive(m: Measure, n: Measure, o: Measure)
    requires NotAbove(m, n) && NotAbove(n, o)
    ensures NotAbove(m, o)
  {
  }

  /** a's finished batches are finished in b as well. */
  ghost predicate KeepsFinished(a: seq<Batch>, b: seq<Batch>) {
    && |a| == |b|
    && (forall i :: 0 <= i < |a| && a[i].enrichment == BatchCompleted ==> b[i].enrichment == BatchCompleted)
    && (forall i :: 0 <= i < |a| && a[i].embedding == BatchCompleted ==> b[i].embedding == BatchCompleted)
  }

  lemma {:induction false} CountsFall(a: seq<Batch>, b: seq<Batch>)
    requires KeepsFinished(a, b)
    ensures Unenriched(b) <= Unenriched(a) && Unembedded(b) <= Unembedded(a) && EmbeddedCount(a) <= EmbeddedCount(b)
  {
    if a != [] {
      CountsFall(a[..|a| - 1], b[..|b| - 1]);
    }
  }

  lemma {:induction false} NothingLeft(batches: seq<Batch>)
    requires forall i :: 0 <= i < |batches| ==>
               batches[i].enrichment == BatchCompleted && batches[i].embedding == BatchCompleted
    ensures Unenriched(batches) == 0 && Unembedded(batches) == 0 && EmbeddedCount(batches) == |batches|
  {
    if batches != [] {
      NothingLeft(batches[..|batches| - 1]);
    }
  }

  predicate IsEmbedded(b: Batch) {
    b.embedding == BatchCompleted
  }

  predicate IsUnembedded(b: Batch) {
    b.embedding != BatchCompleted
  }

  predicate IsUnenriched(b: Batch) {
    b.enrichment != BatchCompleted
  }

  ghost function Places(batches: seq<Batch>, f: Batch -> bool): set<nat> {
    set i | 0 <= i < |batches| && f(batches[i])
  }

  lemma PlacesMore(batches: seq<Batch>, f: Batch -> bool)
    requires batches != []
    ensures var n := |batches| - 1;
            |Places(batches, f)| == |Places(batches[..n], f)| + if f(batches[n]) then 1 else 0
  {
    var n := |batches| - 1;
    var front := Places(batches[..n], f);
    assert Places(batches, f) == front + if f(batches[n]) then {n} else {};
    assert n !in front;
  }

  /** The counts are the numbers of such batches. */
  lemma {:induction false} CountsAre(batches: seq<Batch>)
    ensures EmbeddedCount(batches) == |Places(batches, IsEmbedded)|
    ensures Unembedded(batches) == |Places(batches, IsUnembedded)|
    ensures Unenriched(batches) == |Places(batches, IsUnenriched)|
  {
    if batches != [] {
      hide Places;
      CountsAre(batches[..|batches| - 1]);
      PlacesMore(batches, IsEmbedded);
      PlacesMore(batches, IsUnembedded);
      PlacesMore(batches, IsUnenriched);
    } else {
      assert Places(batches, IsEmbedded) == {};
      assert Places(batches, IsUnembedded) == {};
      assert Places(batches, IsUnenriched) == {};
    }
  }

  // ------------------------------------------------------ steps

  /**
   * Every chunk and alias for which this embedder's answer is long enough has the vector at its place
   * in the answer.
   */
  ghost predicate IndexedBy(w: World, i: nat, b: Batch) {
    var order := OrderOr(w.aliasOrder(i, |b.aliases|), |b.aliases|);
    && (forall k :: 0 <= k < |b.chunks| ==> HasChunkAnswer(b.chunks[k], ChunkAnswer(w.ext, b.chunks, k)))
    && (forall j :: 0 <= j < |b.aliases| ==> HasAliasAnswer(b.aliases[order[j]], AliasAnswer(w.ext, b.aliases, order, j)))
  }

  predicate HasChunkAnswer(c: ChunkRow, answer: Option<Vector>) {
    answer.Some? ==> c.full == answer && c.short == Some(answer.value[..Min(256, |answer.value|)])
  }

  predicate HasAliasAnswer(a: AliasRow, answer: Option<Vector>) {
    answer.Some? ==> a.short == Some(answer.value[..Min(256, |answer.value|)])
  }

  /** What one commit can do to batch i. */
  ghost predicate BatchStep(w: World, i: nat, summary: Option<Summary>, b: Batch, c: Batch) {
    || c == b
    || (b.enrichment != BatchCompleted && c == b.(enrichment := BatchProcessing))
    || EnrichmentStep(w, i, summary, b, c)
    || EmbeddingStep(w, i, b, c)
  }

  ghost predicate EnrichmentStep(w: World, i: nat, summary: Option<Summary>, b: Batch, c: Batch) {
    && b.enrichment == BatchProcessing && summary.Some?
    && c == EnrichedBatch(w.ext, summary.value, b, OrderOr(w.parentOrder(i, |b.parents|), |b.parents|))
  }

  ghost predicate EmbeddingStep(w: World, i: nat, b: Batch, c: Batch) {
    && b.enrichment == BatchCompleted && b.embedding != BatchCompleted
    && (|| c == b.(embedding := BatchProcessing)
        || (&& b.embedding == BatchProcessing
            && (|| c == b.(chunks := EmbeddedChunks(w.ext, b.chunks))
                || c == b.(aliases := EmbeddedAliases(w.ext, b.aliases, OrderOr(w.aliasOrder(i, |b.aliases|), |b.aliases|)))
                || (c == b.(embedding := BatchCompleted) && IndexedBy(w, i, c)))))
  }

  predicate Works(db: Db, next: Db) {
    db.status == Processing == next.status && next.retries == db.retries && next.completed == db.completed
  }

  /** The phase that a change of the batch belongs to. */
  function WorkOf(b: Batch): Phase {
    if b.enrichment != BatchCompleted then InEnrichment else InEmbedding
  }

  /**
   * What one commit of a run can do to the rows: chunk the file, summarize it, or change batches. The
   * file row is PROCESSING then, before and after, and names the phase that does it.
   */
  ghost predicate DbStep(w: World, db: Db, next: Db) {
    || (&& db.phase == InChunking == next.phase && Works(db, next) && next.summary == db.summary && next.total == 1
        && db.batches == [] && !YieldsNothing(w.ext) && next.batches == [ChunkedBatch(w.ext)])
    || (&& db.phase == InSummarization == next.phase && Works(db, next) && next.batches == db.batches && next.total == db.total
        && Readable(w) && db.summary.None? && next.summary == Some(SummaryFor(w, db)))
    || (&& next.summary == db.summary && |next.batches| == |db.batches| && next.total == db.total
        && forall i :: 0 <= i < |db.batches| ==>
             && BatchStep(w, i, db.summary, db.batches[i], next.batches[i])
             && (next.batches[i] != db.batches[i] ==>
                   Works(db, next) && db.phase == WorkOf(db.batches[i]) == next.phase))
  }

  /** Every state keeps the phases in order and follows from the one before by a step. */
  ghost predicate Trail(w: World, db: Db, states: seq<Db>)
    decreases |states|
  {
    states == [] || (PhasesInOrder(states[0]) && DbStep(w, db, states[0]) && Trail(w, states[0], states[1..]))
  }

  lemma {:induction false} TrailAppend(w: World, db: Db, a: seq<Db>, b: seq<Db>)
    requires Trail(w, db, a) && Trail(w, Last(db, a), b)
    ensures Trail(w, db, a + b)
    decreases |a|
  {
    hide DbStep, PhasesInOrder;
    if a == [] {
      assert a + b == b;
    } else {
      TrailAppend(w, a[0], a[1..], b);
      assert (a + b)[1..] == a[1..] + b;
    }
  }

  lemma TrailOne(w: World, db: Db, next: Db)
    requires PhasesInOrder(next) && DbStep(w, db, next)
    ensures Trail(w, db, [next]) && Last(db, [next]) == next
  {
    hide DbStep, PhasesInOrder;
    assert [next][1..] == [];
  }

  lemma NoTrail(w: World, db: Db)
    ensures Trail(w, db, []) && Last(db, []) == db
  {
  }

  /** A commit that leaves batches and summary alone is a step. */
  lemma ColumnsStep(w: World, db: Db, next: Db)
    requires next.batches == db.batches && next.summary == db.summary && next.total == db.total
    ensures DbStep(w, db, next)
  {
    hide EnrichmentStep, EmbeddingStep;
  }

  lemma BatchStepKeeps(w: World, i: nat, summary: Option<Summary>, b: Batch, c: Batch)
    requires BatchStep(w, i, summary, b, c)
    ensures b.enrichment == BatchCompleted ==> c.enrichment == BatchCompleted
    ensures b.embedding == BatchCompleted ==> c.embedding == BatchCompleted
  {
    hide IndexedBy, SlotPrefixes, AllAliases, AllSlots;
  }

  lemma StepKeepsFinished(w: World, db: Db, next: Db)
    requires DbStep(w, db, next) && db.batches != []
    ensures KeepsFinished(db.batches, next.batches)
  {
    hide BatchStep;
    if |next.batches| == |db.batches| && next.summary == db.summary && next.batches != db.batches {
      forall i | 0 <= i < |db.batches|
        ensures db.batches[i].enrichment == BatchCompleted ==> next.batches[i].enrichment == BatchCompleted
        ensures db.batches[i].embedding == BatchCompleted ==> next.batches[i].embedding == BatchCompleted
      {
        BatchStepKeeps(w, i, db.summary, db.batches[i], next.batches[i]);
      }
    }
  }

  /** A step leaves no more to do. */
  lemma StepFalls(w: World, db: Db, next: Db)
    requires DbStep(w, db, next)
    ensures NotAbove(MeasureOf(next), MeasureOf(db))
  {
    hide BatchStep;
    if db.batches != [] {
      StepKeepsFinished(w, db, next);
      hide DbStep;
      CountsFall(db.batches, next.batches);
    }
  }

  /** Neither does a trail, up to any of its states. */
  lemma {:induction false} TrailFalls(w: World, db: Db, states: seq<Db>, k: nat)
    requires Trail(w, db, states) && k < |states|
    ensures PhasesInOrder(states[k]) && NotAbove(MeasureOf(states[k]), MeasureOf(db))
    decreases k
  {
    hide DbStep, PhasesInOrder, MeasureOf, NotAbove;
    StepFalls(w, db, states[0]);
    if k > 0 {
      TrailFalls(w, states[0], states[1..], k - 1);
      NotAboveTransitive(MeasureOf(states[k]), MeasureOf(states[0]), MeasureOf(db));
    }
  }

  lemma {:induction false} TrailPair(w: World, db: Db, states: seq<Db>, j: nat, k: nat)
    requires Trail(w, db, states) && j < k < |states|
    ensures NotAbove(MeasureOf(states[k]), MeasureOf(states[j]))
    decreases j
  {
    hide DbStep, PhasesInOrder, MeasureOf, NotAbove;
    if j == 0 {
      TrailFalls(w, states[0], states[1..], k - 1);
    } else {
      TrailPair(w, states[0], states[1..], j - 1, k - 1);
    }
  }

  // ------------------------------------------------------ replacing one batch

  /** Batch i can become c without breaking the order of the phases. */
  ghost predicate CanBecome(db: Db, i: nat, c: Batch)
    requires i < |db.batches|
  {
    var b := db.batches[i];
    && db.status != Ready && WellChunked(c)
    && (c.enrichment != BatchPending ==> db.summary.Some?)
    && (b.enrichment == BatchCompleted ==> c.enrichment == BatchCompleted)
    && (b.embedding == BatchCompleted ==> c.embedding == BatchCompleted)
    && (c.embedding != BatchPending ==>
          c.enrichment == BatchCompleted
          && forall j :: 0 <= j < |db.batches| && j != i ==> db.batches[j].enrichment == BatchCompleted)
  }

  lemma Becomes(w: World, db: Db, i: nat, c: Batch)
    requires PhasesInOrder(db) && i < |db.batches| && CanBecome(db, i, c)
    requires BatchStep(w, i, db.summary, db.batches[i], c)
    requires db.status == Processing && db.phase == WorkOf(db.batches[i])
    ensures PhasesInOrder(SetBatch(db, i, c)) && Trail(w, db, [SetBatch(db, i, c)])
    ensures KeepsFinished(db.batches, SetBatch(db, i, c).batches)
  {
    hide WellChunked, EnrichmentStep, EmbeddingStep, EmbeddedCount;
    var next := SetBatch(db, i, c);
    assert KeepsFinished(db.batches, next.batches);
    CountsFall(db.batches, next.batches);
    assert DbStep(w, db, next);
    hide DbStep;
    TrailOne(w, db, next);
  }

  // ------------------------------------------------------ one batch

  lemma EnrichedKeeps(ext: External, sum: Summary, b: Batch, order: seq<nat>)
    requires IsOrder(order, |b.parents|)
    ensures var e := EnrichedBatch(ext, sum, b, order);
            && (WellChunked(b) ==> WellChunked(e))
            && e.enrichment == BatchCompleted && e.embedding == b.embedding && |e.chunks| == |b.chunks|
  {
    hide AllSlots, SlotPrefixes, AllAliases;
  }

  /** What holds of the state q in which one batch, or all of them, are left. */
  ghost predicate Only(db: Db, q: Db) {
    PhasesInOrder(q) && q == db.(batches := q.batches) && KeepsFinished(db.batches, q.batches)
  }

  lemma OnlySelf(db: Db)
    requires PhasesInOrder(db)
    ensures Only(db, db)
  {
  }

  lemma OnlyTransitive(a: Db, b: Db, c: Db)
    requires Only(a, b) && Only(b, c)
    ensures Only(a, c)
  {
    hide PhasesInOrder;
  }

  lemma EnrichmentTrail(w: World, sum: Summary, db: Db, i: nat)
    requires db.phase == InEnrichment
    requires Readable(w) && PhasesInOrder(db) && db.status == Processing && db.summary == Some(sum) && i < |db.batches|
    ensures var commits := EnrichmentCommits(w, sum, db, i);
            var q := Last(db, commits);
            && Trail(w, db, commits) && Only(db, q) && q.batches[i].enrichment == BatchCompleted
            && forall j :: 0 <= j < |db.batches| ==> q.batches[j].embedding == db.batches[j].embedding
  {
    hide EnrichedBatch, Trail, DbStep, EmbeddedCount;
    var b := db.batches[i];
    NoTrail(w, db);
    if b.enrichment != BatchCompleted {
      assert b.embedding == BatchPending;
      var started := b.(enrichment := BatchProcessing);
      ParentOrderIsOrder(w, i, |b.parents|);
      var e := EnrichedBatch(w.ext, sum, started, w.parentOrder(i, |b.parents|));
      EnrichedKeeps(w.ext, sum, started, w.parentOrder(i, |b.parents|));
      StartIsStep(w, i, db.summary, b);
      Becomes(w, db, i, started);
      var first := SetBatch(db, i, started);
      assert EnrichmentStep(w, i, db.summary, started, e);
      IsBatchStep(w, i, db.summary, started, e);
      Becomes(w, first, i, e);
      SetTwice(db, i, started, e);
      TrailAppend(w, db, [first], [SetBatch(db, i, e)]);
      assert EnrichmentCommits(w, sum, db, i) == [first] + [SetBatch(db, i, e)];
    }
  }

  lemma StartIsStep(w: World, i: nat, summary: Option<Summary>, b: Batch)
    requires b.enrichment != BatchCompleted
    ensures BatchStep(w, i, summary, b, b.(enrichment := BatchProcessing))
  {
    hide EnrichmentStep, EmbeddingStep;
  }

  lemma IsBatchStep(w: World, i: nat, summary: Option<Summary>, b: Batch, c: Batch)
    requires EnrichmentStep(w, i, summary, b, c) || EmbeddingStep(w, i, b, c)
    ensures BatchStep(w, i, summary, b, c)
  {
    hide EnrichmentStep, EmbeddingStep;
  }

  predicate AllEnrichedNow(batches: seq<Batch>) {
    forall j :: 0 <= j < |batches| ==> batches[j].enrichment == BatchCompleted
  }

  /** A batch that is being embedded can take what the embedder stores, and can be marked as embedded. */
  lemma EmbedBecomes(w: World, db: Db, i: nat, c: Batch)
    requires db.phase == InEmbedding
    requires PhasesInOrder(db) && db.status == Processing && i < |db.batches| && AllEnrichedNow(db.batches)
    requires db.batches[i].embedding != BatchCompleted && EmbeddingStep(w, i, db.batches[i], c)
    requires WellChunked(c) && c.enrichment == BatchCompleted && c.embedding != BatchPending
    ensures Only(db, SetBatch(db, i, c)) && Trail(w, db, [SetBatch(db, i, c)])
    ensures AllEnrichedNow(SetBatch(db, i, c).batches)
  {
    hide EmbeddingStep, EnrichmentStep, Trail, DbStep, EmbeddedCount, WellChunked;
    IsBatchStep(w, i, db.summary, db.batches[i], c);
    assert CanBecome(db, i, c);
    Becomes(w, db, i, c);
  }

  lemma StoredKeepsChunked(ext: External, b: Batch)
    requires WellChunked(b)
    ensures WellChunked(b.(chunks := EmbeddedChunks(ext, b.chunks)))
  {
    hide EmbeddedChunks, ChunkAnswer;
    ChunksGetAnswers(ext, b.chunks);
  }

  /** What the two loops stored is what the embedder answered for the rows as they now are. */
  lemma StoredIsIndexed(w: World, i: nat, b: Batch)
    requires Readable(w)
    ensures IsOrder(w.aliasOrder(i, |b.aliases|), |b.aliases|)
    ensures IndexedBy(w, i, b.(embedding := BatchCompleted, chunks := EmbeddedChunks(w.ext, b.chunks),
                               aliases := EmbeddedAliases(w.ext, b.aliases, w.aliasOrder(i, |b.aliases|))))
  {
    hide EmbeddedChunks, EmbeddedAliases, ChunkAnswer, AliasAnswer, SameRequest;
    AliasOrderIsOrder(w, i, |b.aliases|);
    var order := w.aliasOrder(i, |b.aliases|);
    var chunks, aliases := EmbeddedChunks(w.ext, b.chunks), EmbeddedAliases(w.ext, b.aliases, order);
    ChunksGetAnswers(w.ext, b.chunks);
    StoredKeepsRequests(w.ext, b.chunks);
    forall k | 0 <= k < |chunks| ensures HasChunkAnswer(chunks[k], ChunkAnswer(w.ext, chunks, k)) {
      SameAnswer(w.ext, chunks, b.chunks, k);
    }
    AliasesGetAnswers(w.ext, b.aliases, order);
    StoredKeepsQuestions(w.ext, b.aliases, order);
    forall j | 0 <= j < |aliases| ensures HasAliasAnswer(aliases[order[j]], AliasAnswer(w.ext, aliases, order, j)) {
      SameQuestions(w.ext, aliases, b.aliases, order, j);
    }
  }

  lemma ChunkCommitsAre(ext: External, db: Db, i: nat)
    requires i < |db.batches|
    ensures var b := db.batches[i]; var c := b.(chunks := EmbeddedChunks(ext, b.chunks));
            && Last(db, ChunkCommits(ext, db, i)) == SetBatch(db, i, c)
            && (ChunkCommits(ext, db, i) == [] || ChunkCommits(ext, db, i) == [SetBatch(db, i, c)])
  {
    hide EmbedFrom;
    var b := db.batches[i];
    if b.chunks == [] {
      assert EmbeddedChunks(ext, b.chunks) == [];
      assert db.batches[i := b] == db.batches;
    }
  }

  lemma AliasCommitsAre(w: World, db: Db, i: nat)
    requires Readable(w) && i < |db.batches|
    ensures IsOrder(w.aliasOrder(i, |db.batches[i].aliases|), |db.batches[i].aliases|)
    ensures var b := db.batches[i];
            var c := b.(aliases := EmbeddedAliases(w.ext, b.aliases, w.aliasOrder(i, |b.aliases|)));
            && Last(db, AliasCommits(w, db, i)) == SetBatch(db, i, c)
            && (AliasCommits(w, db, i) == [] || AliasCommits(w, db, i) == [SetBatch(db, i, c)])
  {
    hide EmbedFrom;
    var b := db.batches[i];
    AliasOrderIsOrder(w, i, |b.aliases|);
    if b.aliases == [] {
      assert EmbeddedAliases(w.ext, b.aliases, w.aliasOrder(i, 0)) == [];
      assert db.batches[i := b] == db.batches;
    }
  }

  /** One of the two storing commits, if there is one. */
  lemma StoreTrail(w: World, db: Db, i: nat, c: Batch, commits: seq<Db>)
    requires db.phase == InEmbedding
    requires PhasesInOrder(db) && db.status == Processing && i < |db.batches| && AllEnrichedNow(db.batches)
    requires db.batches[i].embedding == BatchProcessing == c.embedding && EmbeddingStep(w, i, db.batches[i], c)
    requires WellChunked(c) && c.enrichment == BatchCompleted
    requires (commits == [] && SetBatch(db, i, c) == db) || commits == [SetBatch(db, i, c)]
    ensures Trail(w, db, commits) && Only(db, SetBatch(db, i, c)) && AllEnrichedNow(SetBatch(db, i, c).batches)
  {
    hide EmbeddingStep, Trail;
    NoTrail(w, db);
    EmbedBecomes(w, db, i, c);
  }

  lemma EmbeddingTrail(w: World, db: Db, i: nat)
    requires db.phase == InEmbedding
    requires Readable(w) && PhasesInOrder(db) && db.status == Processing && i < |db.batches| && AllEnrichedNow(db.batches)
    ensures var commits := EmbeddingCommits(w, db, i);
            var q := Last(db, commits);
            && Trail(w, db, commits) && Only(db, q) && AllEnrichedNow(q.batches)
            && q.batches[i].embedding == BatchCompleted
  {
    hide Trail, PhasesInOrder, Only, ChunkCommits, AliasCommits, EmbeddedChunks, EmbeddedAliases, IndexedBy, WellChunked;
    NoTrail(w, db);
    OnlySelf(db);
    var b := db.batches[i];
    if b.embedding != BatchCompleted {
      ChunkedNow(db, i);
      var b1 := b.(embedding := BatchProcessing);
      var db1 := SetEmbedding(db, i, BatchProcessing);
      SameChunked(b, b1);
      EmbedBecomes(w, db, i, b1);
      OnlyInOrder(db, db1);
      var chunks := ChunkCommits(w.ext, db1, i);
      ChunkCommitsAre(w.ext, db1, i);
      var b2 := b1.(chunks := EmbeddedChunks(w.ext, b.chunks));
      StoredKeepsChunked(w.ext, b1);
      StoreTrail(w, db1, i, b2, chunks);
      var db2 := SetBatch(db1, i, b2);
      OnlyInOrder(db1, db2);
      var aliases := AliasCommits(w, db2, i);
      AliasCommitsAre(w, db2, i);
      var b3 := b2.(aliases := EmbeddedAliases(w.ext, b.aliases, w.aliasOrder(i, |b.aliases|)));
      SameChunked(b2, b3);
      StoreTrail(w, db2, i, b3, aliases);
      var db3 := SetBatch(db2, i, b3);
      OnlyInOrder(db2, db3);
      var b4 := b3.(embedding := BatchCompleted);
      SameChunked(b3, b4);
      StoredIsIndexed(w, i, b);
      var db4 := SetEmbedding(db3, i, BatchCompleted);
      EmbedBecomes(w, db3, i, b4);
      JoinTrails(w, db, db1, chunks, db2, aliases, db3, db4);
      OnlyTransitive(db, db1, db2);
      OnlyTransitive(db, db2, db3);
      OnlyTransitive(db, db3, db4);
    }
  }

  lemma JoinTrails(w: World, db: Db, db1: Db, b: seq<Db>, db2: Db, c: seq<Db>, db3: Db, db4: Db)
    requires Trail(w, db, [db1]) && Trail(w, db1, b) && Trail(w, db2, c) && Trail(w, db3, [db4])
    requires Last(db1, b) == db2 && Last(db2, c) == db3
    ensures Trail(w, db, [db1] + b + c + [db4]) && Last(db, [db1] + b + c + [db4]) == db4
  {
    hide Trail;
    TrailAppend(w, db, [db1], b);
    LastAppend(db, [db1], b);
    TrailAppend(w, db, [db1] + b, c);
    LastAppend(db, [db1] + b, c);
    TrailAppend(w, db, [db1] + b + c, [db4]);
  }

  lemma ChunkedNow(db: Db, i: nat)
    requires PhasesInOrder(db) && i < |db.batches|
    ensures WellChunked(db.batches[i])
  {
    hide WellChunked;
  }

  lemma SameChunked(b: Batch, c: Batch)
    requires WellChunked(b) && c.chunks == b.chunks && c.count == b.count && c.chunking == b.chunking
    ensures WellChunked(c)
  {
  }

  lemma OnlyInOrder(db: Db, q: Db)
    requires Only(db, q)
    ensures PhasesInOrder(q) && q.status == db.status && q.phase == db.phase && |q.batches| == |db.batches|
  {
    hide PhasesInOrder;
  }

  // ------------------------------------------------------ the phases

  lemma {:induction false} RowsOrdered(groups: seq<Group>, n: nat)
    requires n <= |groups|
    ensures ByParent(ChunkRows(groups, n))
    ensures forall k :: 0 <= k < |ChunkRows(groups, n)| ==>
            Bare(ChunkRows(groups, n)[k], k) && ChunkRows(groups, n)[k].parent < n
  {
    if n > 0 {
      RowsOrdered(groups, n - 1);
    }
  }

  /** Phase 1 numbers the chunks from 0 on, parent by parent, and counts them. */
  lemma ChunkedIsFresh(ext: External)
    ensures Fresh(ChunkedBatch(ext))
  {
    hide ChunkRows;
    RowsOrdered(ext.groups, |ext.groups|);
  }

  /** Announcing a phase. */
  lemma BeginTrail(w: World, db: Db, phase: Phase)
    requires PhasesInOrder(db) && db.status == Processing
    ensures PhasesInOrder(db.(phase := phase)) && Trail(w, db, [db.(phase := phase)])
  {
    ColumnsStep(w, db, db.(phase := phase));
    hide DbStep;
    TrailOne(w, db, db.(phase := phase));
  }

  lemma ChunkTrail(w: World, db: Db)
    requires PhasesInOrder(db) && db.status == Processing && db.batches == []
    ensures var q := Last(db, Chunk1(w, db));
            && Trail(w, db, Chunk1(w, db)) && PhasesInOrder(q)
            && q == if YieldsNothing(w.ext) then db.(phase := InChunking, status := Failed)
                    else db.(phase := InChunking, batches := [ChunkedBatch(w.ext)], total := 1)
  {
    hide Trail, ChunkedBatch, YieldsNothing, PhasesInOrder, DbStep;
    var begun := db.(phase := InChunking);
    BeginTrail(w, db, InChunking);
    var next := if YieldsNothing(w.ext) then begun.(status := Failed)
                else begun.(batches := [ChunkedBatch(w.ext)], total := 1);
    assert begun.batches + [ChunkedBatch(w.ext)] == [ChunkedBatch(w.ext)];
    ChunkedInOrder(w.ext, begun, next);
    ChunkedIsStep(w, begun, next);
    TrailOne(w, begun, next);
    TrailAppend(w, db, [begun], [next]);
  }

  lemma ChunkedIsStep(w: World, db: Db, next: Db)
    requires db.batches == [] && db.phase == InChunking && db.status == Processing
    requires next == if YieldsNothing(w.ext) then db.(status := Failed)
                     else db.(batches := [ChunkedBatch(w.ext)], total := 1)
    ensures DbStep(w, db, next)
  {
    hide ChunkedBatch, YieldsNothing;
    if YieldsNothing(w.ext) {
      ColumnsStep(w, db, next);
    }
  }

  lemma ChunkedInOrder(ext: External, db: Db, next: Db)
    requires PhasesInOrder(db) && db.batches == [] && db.status == Processing
    requires next == db.(status := Failed) || next == db.(batches := [ChunkedBatch(ext)], total := 1)
    ensures PhasesInOrder(next)
  {
    hide ChunkedBatch;
    ChunkedIsFresh(ext);
    var b := ChunkedBatch(ext);
    assert forall k :: 0 <= k < |b.chunks| ==> Bare(b.chunks[k], k);
  }

  lemma SummarizeTrail(w: World, db: Db)
    requires Readable(w) && PhasesInOrder(db) && db.status == Processing && db.summary.None?
    ensures var q := Last(db, Summarize2(w, db));
            && Trail(w, db, Summarize2(w, db)) && PhasesInOrder(q)
            && q == db.(phase := InSummarization, summary := Some(SummaryFor(w, db.(phase := InSummarization))))
  {
    hide SummaryFor, Trail, WellChunked, EmbeddedCount;
    var begun := db.(phase := InSummarization);
    BeginTrail(w, db, InSummarization);
    var next := begun.(summary := Some(SummaryFor(w, begun)));
    TrailOne(w, begun, next);
    TrailAppend(w, db, [begun], [next]);
  }

  lemma {:induction false} Phase3Trail(w: World, sum: Summary, db: Db, i: nat)
    requires db.phase == InEnrichment
    requires Readable(w) && PhasesInOrder(db) && db.status == Processing && db.summary == Some(sum) && i <= |db.batches|
    requires forall j :: 0 <= j < i ==> db.batches[j].enrichment == BatchCompleted
    ensures var q := Last(db, Phase3(w, sum, db, i));
            && Trail(w, db, Phase3(w, sum, db, i)) && Only(db, q) && AllEnrichedNow(q.batches)
            && forall j :: 0 <= j < |db.batches| ==> q.batches[j].embedding == db.batches[j].embedding
    decreases |db.batches| - i
  {
    hide Trail, PhasesInOrder, EnrichmentCommits;
    NoTrail(w, db);
    OnlySelf(db);
    if i < |db.batches| {
      var commits := EnrichmentCommits(w, sum, db, i);
      var next := Last(db, commits);
      EnrichmentTrail(w, sum, db, i);
      OnlyInOrder(db, next);
      Phase3Trail(w, sum, next, i + 1);
      var rest := Phase3(w, sum, next, i + 1);
      TrailAppend(w, db, commits, rest);
      LastAppend(db, commits, rest);
      OnlyTransitive(db, next, Last(next, rest));
    }
  }

  lemma {:induction false} EmbedBatchesTrail(w: World, db: Db, i: nat)
    requires db.phase == InEmbedding
    requires Readable(w) && PhasesInOrder(db) && db.status == Processing && AllEnrichedNow(db.batches) && i <= |db.batches|
    requires forall j :: 0 <= j < i ==> db.batches[j].embedding == BatchCompleted
    ensures var q := Last(db, EmbedBatches(w, db, i));
            && Trail(w, db, EmbedBatches(w, db, i)) && Only(db, q) && AllEnrichedNow(q.batches)
            && forall j :: 0 <= j < |q.batches| ==> q.batches[j].embedding == BatchCompleted
    decreases |db.batches| - i
  {
    hide Trail, PhasesInOrder, EmbeddingCommits, AllEnrichedNow;
    NoTrail(w, db);
    OnlySelf(db);
    if i < |db.batches| {
      var commits := EmbeddingCommits(w, db, i);
      var next := Last(db, commits);
      EmbeddingTrail(w, db, i);
      OnlyInOrder(db, next);
      EmbedBatchesTrail(w, next, i + 1);
      var rest := EmbedBatches(w, next, i + 1);
      TrailAppend(w, db, commits, rest);
      LastAppend(db, commits, rest);
      OnlyTransitive(db, next, Last(next, rest));
    }
  }

  lemma EnrichPhaseTrail(w: World, sum: Summary, db: Db)
    requires Readable(w) && PhasesInOrder(db) && db.status == Processing && db.summary == Some(sum)
    ensures var q := Last(db, Enrich3(w, sum, db));
            && Trail(w, db, Enrich3(w, sum, db)) && PhasesInOrder(q)
            && q == db.(phase := InEnrichment, batches := q.batches) && |q.batches| == |db.batches|
            && AllEnrichedNow(q.batches)
  {
    hide Trail, PhasesInOrder, Phase3;
    var begun := db.(phase := InEnrichment);
    BeginTrail(w, db, InEnrichment);
    Phase3Trail(w, sum, begun, 0);
    OnlyInOrder(begun, Last(begun, Phase3(w, sum, begun, 0)));
    TrailAppend(w, db, [begun], Phase3(w, sum, begun, 0));
    LastAppend(db, [begun], Phase3(w, sum, begun, 0));
  }

  lemma EmbedPhaseTrail(w: World, db: Db)
    requires Readable(w) && PhasesInOrder(db) && db.status == Processing && AllEnrichedNow(db.batches)
    ensures var q := Last(db, Embed4(w, db));
            && Trail(w, db, Embed4(w, db)) && PhasesInOrder(q)
            && q == db.(phase := InEmbedding, batches := q.batches, completed := |q.batches|)
            && |q.batches| == |db.batches| && AllEnrichedNow(q.batches)
            && forall j :: 0 <= j < |q.batches| ==> q.batches[j].embedding == BatchCompleted
  {
    hide Trail, PhasesInOrder, EmbedBatches, AllEnrichedNow, EmbeddedCount;
    var begun := db.(phase := InEmbedding);
    BeginTrail(w, db, InEmbedding);
    var commits := EmbedBatches(w, begun, 0);
    EmbedBatchesTrail(w, begun, 0);
    var done := Last(begun, commits);
    OnlyInOrder(begun, done);
    CountTrail(w, done);
    var counted := done.(completed := EmbeddedCount(done.batches));
    TrailAppend(w, db, [begun], commits);
    LastAppend(db, [begun], commits);
    TrailAppend(w, db, [begun] + commits, [counted]);
    assert Embed4(w, db) == [begun] + commits + [counted];
  }

  lemma CountTrail(w: World, db: Db)
    requires PhasesInOrder(db) && AllEnrichedNow(db.batches)
    requires forall j :: 0 <= j < |db.batches| ==> db.batches[j].embedding == BatchCompleted
    ensures EmbeddedCount(db.batches) == |db.batches|
    ensures var counted := db.(completed := EmbeddedCount(db.batches));
            PhasesInOrder(counted) && Trail(w, db, [counted])
  {
    NothingLeft(db.batches);
    var counted := db.(completed := EmbeddedCount(db.batches));
    ColumnsStep(w, db, counted);
    hide DbStep;
    TrailOne(w, db, counted);
  }

  lemma FinishTrail(w: World, db: Db)
    requires PhasesInOrder(db) && AllEnrichedNow(db.batches) && db.batches != [] && db.summary.Some?
    requires forall j :: 0 <= j < |db.batches| ==> db.batches[j].embedding == BatchCompleted
    ensures Trail(w, db, Finish(db)) && PhasesInOrder(db.(status := Ready, phase := NoPhase))
    ensures Last(db, Finish(db)) == db.(status := Ready, phase := NoPhase)
  {
    hide EmbeddedCount;
    var next := db.(status := Ready, phase := NoPhase);
    assert AllChunked(next.batches) by {
      forall i | 0 <= i < |db.batches| ensures db.batches[i].chunking == BatchCompleted {
        assert WellChunked(db.batches[i]);
      }
    }
    ColumnsStep(w, db, next);
    hide DbStep;
    TrailOne(w, db, next);
  }

  // ------------------------------------------------------ a whole run

  /** How an uncut run from `db` ends. */
  ghost predicate RunEnded(w: World, db: Db, q: Db) {
    if db.batches == [] && YieldsNothing(w.ext) then q == db.(status := Failed, phase := InChunking)
    else
      && q.status == Ready && q.phase == NoPhase && q.summary.Some? && q.retries == db.retries
      && q.batches != [] && (db.batches != [] ==> |q.batches| == |db.batches|)
      && AllEnriched(q.batches) && AllEmbedded(q.batches)
      && q.total == (if db.batches == [] then 1 else db.total)
      && q.completed == if AllEmbedded(db.batches) then db.completed else |q.batches|
  }

  lemma RestTrail(w: World, start: Db, db: Db)
    requires Readable(w) && PhasesInOrder(start) && PhasesInOrder(db) && db.status == Processing
    requires db.batches != [] && start.summary == db.summary && (start.batches == [] || start.batches == db.batches)
    ensures var q := Last(db, AfterChunking(w, start, db));
            && Trail(w, db, AfterChunking(w, start, db))
            && q.status == Ready && q.phase == NoPhase && q.summary.Some? && q.retries == db.retries
            && |q.batches| == |db.batches| && AllEnriched(q.batches) && AllEmbedded(q.batches) && q.total == db.total
            && q.completed == if AllEmbedded(start.batches) then db.completed else |q.batches|
  {
    EmbeddedAreEnriched(start);
    hide Trail, PhasesInOrder, Summarize2, Enrich3, Embed4, SummaryFor, Finish;
    NoTrail(w, db);
    var two := if start.summary.None? then Summarize2(w, db) else [];
    if start.summary.None? {
      SummarizeTrail(w, db);
    }
    var db2 := Last(db, two);
    var sum := db2.summary.value;
    NoTrail(w, db2);
    var three := if AllEnriched(start.batches) then [] else Enrich3(w, sum, db2);
    if !AllEnriched(start.batches) {
      EnrichPhaseTrail(w, sum, db2);
    }
    var db3 := Last(db2, three);
    NoTrail(w, db3);
    var four := if AllEmbedded(start.batches) then [] else Embed4(w, db3);
    if !AllEmbedded(start.batches) {
      EmbedPhaseTrail(w, db3);
    }
    var db4 := Last(db3, four);
    FinishTrail(w, db4);
    AfterChunkingIs(w, start, db, sum, two, three, four);
    JoinPhases(w, db, two, three, four, Finish(db4));
  }

  lemma EmbeddedAreEnriched(db: Db)
    requires PhasesInOrder(db)
    ensures AllEmbedded(db.batches) ==> AllEnriched(db.batches)
  {
    hide WellChunked, EmbeddedCount;
  }

  lemma AfterChunkingIs(w: World, start: Db, db: Db, sum: Summary, two: seq<Db>, three: seq<Db>, four: seq<Db>)
    requires Readable(w)
    requires two == if start.summary.None? then Summarize2(w, db) else []
    requires sum == if start.summary.None? then SummaryFor(w, db.(phase := InSummarization)) else start.summary.value
    requires three == if AllEnriched(start.batches) then [] else Enrich3(w, sum, Last(db, two))
    requires four == if AllEmbedded(start.batches) then [] else Embed4(w, Last(Last(db, two), three))
    ensures AfterChunking(w, start, db) == two + three + four + Finish(Last(Last(Last(db, two), three), four))
  {
    hide Summarize2, Enrich3, Embed4, SummaryFor, AllEnriched, AllEmbedded, Last, Finish;
  }

  lemma JoinPhases(w: World, db: Db, a: seq<Db>, b: seq<Db>, c: seq<Db>, d: seq<Db>)
    requires Trail(w, db, a) && Trail(w, Last(db, a), b) && Trail(w, Last(Last(db, a), b), c)
    requires Trail(w, Last(Last(Last(db, a), b), c), d)
    ensures Trail(w, db, a + b + c + d) && Last(db, a + b + c + d) == Last(Last(Last(Last(db, a), b), c), d)
  {
    hide Trail;
    TrailAppend(w, db, a, b);
    LastAppend(db, a, b);
    TrailAppend(w, db, a + b, c);
    LastAppend(db, a + b, c);
    TrailAppend(w, db, a + b + c, d);
    LastAppend(db, a + b + c, d);
  }

  lemma StartTrail(w: World, db: Db)
    requires PhasesInOrder(db)
    ensures var start := db.(status := Processing); PhasesInOrder(start) && Trail(w, db, [start])
    ensures AllChunked(db.batches) <==> db.batches != []
  {
    var start := db.(status := Processing);
    if db.batches != [] {
      forall i | 0 <= i < |db.batches| ensures db.batches[i].chunking == BatchCompleted {
        assert WellChunked(db.batches[i]);
      }
    }
    ColumnsStep(w, db, start);
    hide DbStep;
    TrailOne(w, db, start);
  }

  /**
   * An uncut run from any state in which the phases are in order: every commit keeps them in order,
   * and the run ends with everything done and READY, or, if there was no batch and the chunker found
   * nothing, FAILED. The count of batches is set unless all were embedded at the start.
   */
  lemma RunTrail(w: World, db: Db)
    requires Readable(w) && PhasesInOrder(db)
    ensures Trail(w, db, Commits(w, db)) && Commits(w, db) != [] && RunEnded(w, db, Last(db, Commits(w, db)))
  {
    hide Trail, PhasesInOrder, Chunk1, AfterChunking, YieldsNothing, AllEnriched, AllEmbedded, AllChunked, ChunkedBatch;
    var start := db.(status := Processing);
    StartTrail(w, db);
    if db.batches != [] {
      RestTrail(w, start, start);
      TrailAppend(w, db, [start], AfterChunking(w, start, start));
      LastAppend(db, [start], AfterChunking(w, start, start));
    } else {
      NoneEmbedded(db.batches);
      var one := Chunk1(w, start);
      var q := Last(start, one);
      ChunkTrail(w, start);
      TrailAppend(w, db, [start], one);
      LastAppend(db, [start], one);
      if YieldsNothing(w.ext) {
        assert Commits(w, db) == [start] + one;
      } else {
        RestTrail(w, start, q);
        TrailAppend(w, db, [start] + one, AfterChunking(w, start, q));
        LastAppend(db, [start] + one, AfterChunking(w, start, q));
      }
    }
  }

  lemma NoneEmbedded(batches: seq<Batch>)
    requires batches == []
    ensures !AllEmbedded(batches) && !AllEnriched(batches)
  {
  }
}
