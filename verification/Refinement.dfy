/** Every state a run commits is the state at a point: the pipeline refines the walk over points. */
module Refinement {
  import opened Sequences
  import opened Statuses
  import opened Rows
  import opened Stages
  import opened Enriching
  import opened Embedding
  import opened Summarizing
  import opened Ingest
  import opened Steps
  import opened Progress

  /**
   * The run has the same services, reads parents back in the same order, and reads aliases back in the
   * same order too, unless the embedder treats each question on its own.
   */
  ghost predicate SameReads(home: World, w: World) {
    && w.ext == home.ext && w.fileOrder == home.fileOrder && w.parentOrder == home.parentOrder && Readable(w)
    && (w.aliasOrder == home.aliasOrder || QuestionsIndependent(home.ext))
  }

  /** The run fits the plan. */
  ghost predicate Hosts(w: World, plan: Plan) {
    SameReads(plan.home, w) && Sound(plan)
  }

  predicate Full(plan: Plan, p: Point) {
    |p.stages| == |plan.base|
  }

  // ------------------------------------------------------ lists of states

  lemma ConcretesAppend(plan: Plan, a: seq<Point>, b: seq<Point>)
    ensures Concretes(plan, a + b) == Concretes(plan, a) + Concretes(plan, b)
  {
    hide Concrete;
  }

  lemma ConcretesOne(plan: Plan, p: Point)
    ensures Concretes(plan, [p]) == [Concrete(plan, p)] && Concretes(plan, []) == []
  {
    hide Concrete;
  }

  lemma LastConcrete(plan: Plan, p: Point, ps: seq<Point>)
    ensures Last(Concrete(plan, p), Concretes(plan, ps)) == Concrete(plan, Last(p, ps))
  {
    hide Concrete;
  }

  function BatchAt(plan: Plan, p: Point, i: nat): Batch
    requires i < |p.stages| && Full(plan, p)
  {
    At(EmbeddedAt(plan, i), EnrichedAt(plan, i), plan.base[i], p.stages[i])
  }

  lemma BatchOf(plan: Plan, p: Point, i: nat)
    requires i < |p.stages| && Full(plan, p)
    ensures |Concrete(plan, p).batches| == |p.stages| && Concrete(plan, p).batches[i] == BatchAt(plan, p, i)
  {
    hide At, EnrichedAt, EmbeddedAt, PlannedSummary;
  }

  /** Replacing batch i by what it is at the higher of two stages raises its stage. */
  lemma SetBump(plan: Plan, p: Point, i: nat, s: nat, b: Batch)
    requires i < |p.stages| && Full(plan, p)
    requires b == At(EmbeddedAt(plan, i), EnrichedAt(plan, i), plan.base[i], Max(p.stages[i], s))
    ensures |Concrete(plan, p).batches| == |p.stages|
    ensures SetBatch(Concrete(plan, p), i, b) == Concrete(plan, Bump(p, i, s))
    ensures BatchAt(plan, Bump(p, i, s), i) == b
  {
    hide At, EnrichedAt, EmbeddedAt, PlannedSummary;
    assert SetBatch(Concrete(plan, p), i, b).batches == Batches(plan, Bump(p, i, s).stages);
  }

  // ------------------------------------------------------ phase 3

  lemma EnrichmentRefines(w: World, plan: Plan, p: Point, i: nat)
    requires Hosts(w, plan) && i < |p.stages| && Full(plan, p)
    ensures |Concrete(plan, p).batches| == |p.stages|
    ensures EnrichmentCommits(w, PlannedSummary(plan), Concrete(plan, p), i) == Concretes(plan, EnrichmentPoints(p, i))
  {
    hide Concrete, Concretes, At, EnrichedBatch, PlannedSummary, QuestionsIndependent, Fresh, Enriches;
    var db, e, base, s := Concrete(plan, p), EnrichedAt(plan, i), plan.base[i], p.stages[i];
    EnrichedAtEnriches(plan, i);
    EmbeddedAtEmbeds(plan, i);
    BatchOf(plan, p, i);
    StatusesAt(EmbeddedAt(plan, i), e, base, s);
    ConcretesOne(plan, p);
    if s < ENRICHED {
      var started := At(EmbeddedAt(plan, i), e, base, ENRICHING);
      BeginEnriching(EmbeddedAt(plan, i), e, base, s);
      StatusesAt(EmbeddedAt(plan, i), e, base, ENRICHING);
      ParentOrderIsOrder(w, i, |base.parents|);
      Enrich(plan.home.ext, PlannedSummary(plan), EmbeddedAt(plan, i), base, w.parentOrder(i, |base.parents|));
      SetBump(plan, p, i, ENRICHING, started);
      SetBump(plan, p, i, ENRICHED, At(EmbeddedAt(plan, i), e, base, ENRICHED));
      TwoConcretes(plan, Bump(p, i, ENRICHING), Bump(p, i, ENRICHED));
    }
  }

  lemma EnrichedAtEnriches(plan: Plan, i: nat)
    requires i < |plan.base| && Fresh(plan.base[i])
    ensures Enriches(plan.base[i], EnrichedAt(plan, i))
  {
    hide EnrichedBatch, PlannedSummary, Enriches;
    var b := plan.base[i];
    Enrich(plan.home.ext, PlannedSummary(plan), b, b, OrderOr(plan.home.parentOrder(i, |b.parents|), |b.parents|));
  }

  lemma EmbeddedAtEmbeds(plan: Plan, i: nat)
    requires i < |plan.base|
    ensures Embeds(plan.home.ext, EnrichedAt(plan, i), EmbeddedAt(plan, i))
    ensures |EmbeddedAt(plan, i).chunks| == |EnrichedAt(plan, i).chunks|
  {
    hide EnrichedAt, EmbeddedChunks, EmbeddedAliases;
  }

  /** However the run reads the aliases, embedding them leaves what the plan says, at first and again. */
  lemma AliasesOfPlan(w: World, plan: Plan, i: nat)
    requires SameReads(plan.home, w) && i < |plan.base|
    ensures var e, f, order := EnrichedAt(plan, i), EmbeddedAt(plan, i), w.aliasOrder(i, |EnrichedAt(plan, i).aliases|);
            && IsOrder(order, |e.aliases|) && |f.aliases| == |e.aliases|
            && EmbeddedAliases(w.ext, e.aliases, order) == f.aliases == EmbeddedAliases(w.ext, f.aliases, order)
  {
    hide EnrichedAt, EmbeddedChunks, EmbeddedAliases, AliasVector, QuestionsIndependent;
    var ext, e, f := plan.home.ext, EnrichedAt(plan, i), EmbeddedAt(plan, i);
    var order := w.aliasOrder(i, |e.aliases|);
    AliasOrderIsOrder(w, i, |e.aliases|);
    if w.aliasOrder == plan.home.aliasOrder {
      AliasesTwice(ext, e.aliases, order);
    } else {
      var home := OrderOr(plan.home.aliasOrder(i, |e.aliases|), |e.aliases|);
      assert QuestionsIndependent(ext);
      SameInAnyOrder(ext, e.aliases, home, order);
      AliasesTwice(ext, e.aliases, home);
      SameInAnyOrder(ext, f.aliases, home, order);
    }
  }

  lemma SameInAnyOrder(ext: External, aliases: seq<AliasRow>, a: seq<nat>, b: seq<nat>)
    requires QuestionsIndependent(ext) && IsOrder(a, |aliases|) && IsOrder(b, |aliases|)
    ensures EmbeddedAliases(ext, aliases, a) == EmbeddedAliases(ext, aliases, b)
  {
    hide EmbeddedAliases, AliasVector, QuestionsIndependent;
    AliasesEmbedded(ext, aliases, a);
    AliasesEmbedded(ext, aliases, b);
  }

  lemma TwoConcretes(plan: Plan, p: Point, q: Point)
    ensures Concretes(plan, [p, q]) == [Concrete(plan, p), Concrete(plan, q)]
  {
    hide Concrete;
  }

  lemma {:induction false} Phase3Refines(w: World, plan: Plan, p: Point, i: nat)
    requires Hosts(w, plan) && Full(plan, p) && i <= |p.stages|
    ensures |Concrete(plan, p).batches| == |p.stages|
    ensures Phase3(w, PlannedSummary(plan), Concrete(plan, p), i) == Concretes(plan, EnrichAll(p, i))
    decreases |p.stages| - i
  {
    hide Concretes, Hosts, EnrichmentCommits, EnrichmentPoints, PlannedSummary;
    ConcretesOne(plan, p);
    if i < |p.stages| {
      var ps := EnrichmentPoints(p, i);
      var q := Last(p, ps);
      EnrichmentRefines(w, plan, p, i);
      LastConcrete(plan, p, ps);
      Phase3Refines(w, plan, q, i + 1);
      ConcretesAppend(plan, ps, EnrichAll(q, i + 1));
    }
  }

  // ------------------------------------------------------ phase 4

  lemma BeginRefines(plan: Plan, p: Point, i: nat)
    requires Full(plan, p) && i < |p.stages| && ENRICHED <= p.stages[i] < EMBEDDED
    ensures |Concrete(plan, p).batches| == |p.stages|
    ensures SetEmbedding(Concrete(plan, p), i, BatchProcessing) == Concrete(plan, Bump(p, i, EMBEDDING))
  {
    hide Concrete, At, EnrichedAt, EmbeddedAt, PlannedSummary;
    BatchOf(plan, p, i);
    var started := At(EmbeddedAt(plan, i), EnrichedAt(plan, i), plan.base[i], Max(p.stages[i], EMBEDDING));
    BeginEmbedding(EmbeddedAt(plan, i), EnrichedAt(plan, i), plan.base[i], p.stages[i]);
    SetBump(plan, p, i, EMBEDDING, started);
  }

  lemma ChunksRefine(plan: Plan, p: Point, i: nat)
    requires Full(plan, p) && i < |p.stages| && EMBEDDING <= p.stages[i] < EMBEDDED
    ensures |Concrete(plan, p).batches| == |p.stages|
    ensures ChunkCommits(plan.home.ext, Concrete(plan, p), i) == Concretes(plan, ChunkPoints(plan, p, i))
  {
    hide Concrete, Concretes, At, EnrichedAt, EmbeddedAt, PlannedSummary, QuestionsIndependent, EmbeddedChunks;
    BatchOf(plan, p, i);
    ConcretesOne(plan, p);
    ConcretesOne(plan, Bump(p, i, CHUNKS_STORED));
    var e, base, s := EnrichedAt(plan, i), plan.base[i], p.stages[i];
    EmbeddedAtEmbeds(plan, i);
    RowsAt(plan.home.ext, EmbeddedAt(plan, i), e, base, s);
    StoreChunks(plan.home.ext, EmbeddedAt(plan, i), e, base, s);
    SetBump(plan, p, i, CHUNKS_STORED, At(EmbeddedAt(plan, i), e, base, Max(s, CHUNKS_STORED)));
  }

  lemma RowsAt(ext: External, f: Batch, e: Batch, b: Batch, s: nat)
    requires s >= ENRICHED && Embeds(ext, e, f)
    ensures |At(f, e, b, s).chunks| == |e.chunks| && |At(f, e, b, s).aliases| == |e.aliases|
  {
  }

  lemma AliasesRefine(w: World, plan: Plan, p: Point, i: nat)
    requires Hosts(w, plan) && Full(plan, p) && i < |p.stages| && EMBEDDING <= p.stages[i] < EMBEDDED
    requires p.stages[i] >= CHUNKS_STORED || !HasChunks(plan, i)
    ensures |Concrete(plan, p).batches| == |p.stages|
    ensures AliasCommits(w, Concrete(plan, p), i) == Concretes(plan, AliasPoints(plan, p, i))
  {
    hide Concrete, Concretes, At, EnrichedAt, EmbeddedAt, PlannedSummary, QuestionsIndependent, EmbeddedAliases, Fresh;
    BatchOf(plan, p, i);
    ConcretesOne(plan, p);
    ConcretesOne(plan, Bump(p, i, ALIASES_STORED));
    var e, base, s := EnrichedAt(plan, i), plan.base[i], p.stages[i];
    EmbeddedAtEmbeds(plan, i);
    RowsAt(plan.home.ext, EmbeddedAt(plan, i), e, base, s);
    var aliases := At(EmbeddedAt(plan, i), e, base, s).aliases;
    AliasesOfPlan(w, plan, i);
    StoreAliases(plan.home.ext, EmbeddedAt(plan, i), e, base, s, w.aliasOrder(i, |aliases|));
    SetBump(plan, p, i, ALIASES_STORED, At(EmbeddedAt(plan, i), e, base, Max(s, ALIASES_STORED)));
  }

  lemma FinishRefines(plan: Plan, p: Point, i: nat)
    requires Full(plan, p) && i < |p.stages| && EMBEDDING <= p.stages[i] < EMBEDDED
    requires p.stages[i] >= CHUNKS_STORED || !HasChunks(plan, i)
    requires p.stages[i] >= ALIASES_STORED || !HasAliases(plan, i)
    ensures |Concrete(plan, p).batches| == |p.stages|
    ensures SetEmbedding(Concrete(plan, p), i, BatchCompleted) == Concrete(plan, Bump(p, i, EMBEDDED))
  {
    hide Concrete, At, EnrichedAt, EmbeddedAt, PlannedSummary;
    BatchOf(plan, p, i);
    var e, base, s := EnrichedAt(plan, i), plan.base[i], p.stages[i];
    EmbeddedAtEmbeds(plan, i);
    FinishEmbedding(plan.home.ext, EmbeddedAt(plan, i), e, base, s);
    SetBump(plan, p, i, EMBEDDED, At(EmbeddedAt(plan, i), e, base, EMBEDDED));
  }

  predicate InPhase4(stages: seq<nat>) {
    forall j :: 0 <= j < |stages| ==> ENRICHED <= stages[j] <= EMBEDDED
  }

  lemma EmbeddingRefines(w: World, plan: Plan, p: Point, i: nat)
    requires Hosts(w, plan) && Full(plan, p) && i < |p.stages| && InPhase4(p.stages)
    ensures |Concrete(plan, p).batches| == |p.stages|
    ensures EmbeddingCommits(w, Concrete(plan, p), i) == Concretes(plan, EmbeddingPoints(plan, p, i))
  {
    hide Concrete, Concretes, At, EnrichedAt, Enriches, PlannedSummary, QuestionsIndependent, HasChunks, HasAliases, Fresh,
         ChunkCommits, AliasCommits, SetEmbedding;
    BatchOf(plan, p, i);
    ConcretesOne(plan, p);
    EnrichedAtEnriches(plan, i);
    EmbeddedAtEmbeds(plan, i);
    StatusesAt(EmbeddedAt(plan, i), EnrichedAt(plan, i), plan.base[i], p.stages[i]);
    if p.stages[i] < EMBEDDED {
      var a := Bump(p, i, EMBEDDING);
      BeginRefines(plan, p, i);
      ConcretesOne(plan, a);
      var b := ChunkPoints(plan, a, i);
      ChunksRefine(plan, a, i);
      LastConcrete(plan, a, b);
      var a2 := Last(a, b);
      var c := AliasPoints(plan, a2, i);
      AliasesRefine(w, plan, a2, i);
      LastConcrete(plan, a2, c);
      var a3 := Last(a2, c);
      var end := Bump(a3, i, EMBEDDED);
      FinishRefines(plan, a3, i);
      ConcretesOne(plan, end);
      ConcretesAppend(plan, [a], b);
      ConcretesAppend(plan, [a] + b, c);
      ConcretesAppend(plan, [a] + b + c, [end]);
    }
  }

  lemma {:induction false} EmbedAllRefines(w: World, plan: Plan, p: Point, i: nat)
    requires Hosts(w, plan) && Full(plan, p) && i <= |p.stages| && InPhase4(p.stages)
    ensures |Concrete(plan, p).batches| == |p.stages|
    ensures EmbedBatches(w, Concrete(plan, p), i) == Concretes(plan, EmbedAll(plan, p, i))
    decreases |p.stages| - i
  {
    hide *;
    BatchCount(plan, p);
    ReadableHost(w, plan);
    EmbedBatchesIs(w, Concrete(plan, p), i);
    EmbedAllIs(plan, p, i);
    ConcretesOne(plan, p);
    if i < |p.stages| {
      var ps := EmbeddingPoints(plan, p, i);
      var q := Last(p, ps);
      EmbeddingRefines(w, plan, p, i);
      EmbeddingStages(plan, p, i);
      LastConcrete(plan, p, ps);
      FullAt(plan, p, q);
      EmbedAllRefines(w, plan, q, i + 1);
      ConcretesAppend(plan, ps, EmbedAll(plan, q, i + 1));
    }
  }

  lemma BatchCount(plan: Plan, p: Point)
    requires Full(plan, p)
    ensures |Concrete(plan, p).batches| == |p.stages|
  {
    hide At, EnrichedAt, EmbeddedAt, PlannedSummary;
  }

  lemma EmbedBatchesIs(w: World, db: Db, i: nat)
    requires Readable(w) && i <= |db.batches|
    ensures EmbedBatches(w, db, i)
         == if i == |db.batches| then []
            else EmbeddingCommits(w, db, i) + EmbedBatches(w, Last(db, EmbeddingCommits(w, db, i)), i + 1)
  {
    hide EmbeddingCommits;
  }

  lemma EmbedAllIs(plan: Plan, p: Point, i: nat)
    requires i <= |p.stages|
    ensures EmbedAll(plan, p, i)
         == if i == |p.stages| then []
            else EmbeddingPoints(plan, p, i) + EmbedAll(plan, Last(p, EmbeddingPoints(plan, p, i)), i + 1)
  {
    hide EmbeddingPoints;
  }

  lemma EmbeddingStages(plan: Plan, p: Point, i: nat)
    requires i < |p.stages| && InPhase4(p.stages)
    ensures var q := Last(p, EmbeddingPoints(plan, p, i)); |q.stages| == |p.stages| && InPhase4(q.stages)
  {
    hide HasChunks, HasAliases;
    assert Last(p, EmbeddingPoints(plan, p, i)).stages == p.stages[i := EMBEDDED];
  }

  lemma {:induction false} CountAll(batches: seq<Batch>)
    requires forall i :: 0 <= i < |batches| ==> batches[i].embedding == BatchCompleted
    ensures EmbeddedCount(batches) == |batches|
  {
    if batches != [] {
      CountAll(batches[..|batches| - 1]);
    }
  }

  lemma BatchStatuses(plan: Plan, p: Point)
    requires Sound(plan) && Full(plan, p)
    ensures var batches := Concrete(plan, p).batches;
            && |batches| == |p.stages|
            && forall i :: 0 <= i < |batches| ==>
                 && batches[i].chunking == BatchCompleted
                 && (batches[i].enrichment == BatchCompleted <==> p.stages[i] >= ENRICHED)
                 && (batches[i].embedding == BatchCompleted <==> p.stages[i] >= EMBEDDED)
                 && batches[i].parents == plan.base[i].parents
  {
    hide At, EnrichedAt, EmbeddedAt, PlannedSummary, Fresh, Enriches;
    forall i | 0 <= i < |p.stages|
      ensures var b := Concrete(plan, p).batches[i];
              && b.chunking == BatchCompleted && (b.enrichment == BatchCompleted <==> p.stages[i] >= ENRICHED)
              && (b.embedding == BatchCompleted <==> p.stages[i] >= EMBEDDED) && b.parents == plan.base[i].parents
    {
      assert Fresh(plan.base[i]);
      EnrichedAtEnriches(plan, i);
      EmbeddedAtEmbeds(plan, i);
      StatusesAt(EmbeddedAt(plan, i), EnrichedAt(plan, i), plan.base[i], p.stages[i]);
    }
  }

  lemma CountRefines(plan: Plan, p: Point)
    requires Sound(plan) && Full(plan, p) && Reached(p.stages, EMBEDDED)
    ensures Concrete(plan, p).(completed := EmbeddedCount(Concrete(plan, p).batches))
            == Concrete(plan, p.(completed := |p.stages|))
  {
    BatchStatuses(plan, p);
    CountAll(Concrete(plan, p).batches);
  }

  lemma EmbedPhaseRefines(w: World, plan: Plan, p: Point)
    requires Hosts(w, plan) && Full(plan, p) && Valid(plan, p) && p.stages != []
    requires p.summarized && p.status == Processing && Reached(p.stages, ENRICHED)
    ensures Embed4(w, Concrete(plan, p)) == Concretes(plan, EmbedPhase(plan, p))
  {
    hide Concretes, QuestionsIndependent, Fresh, PlannedSummary, EmbedBatches, EmbedAll, Path, EmbeddedCount, Batches;
    var begun := p.(phase := InEmbedding);
    BeginPath(plan, p, InEmbedding);
    var ps := EmbedAll(plan, begun, 0);
    EmbedAllRefines(w, plan, begun, 0);
    EmbedAllPath(plan, begun, 0);
    LastConcrete(plan, begun, ps);
    var done := Last(begun, ps);
    CountRefines(plan, done);
    var counted := done.(completed := |p.stages|);
    ConcretesOne(plan, begun);
    ConcretesOne(plan, counted);
    ConcretesAppend(plan, [begun], ps);
    ConcretesAppend(plan, [begun] + ps, [counted]);
    Associative([Concrete(plan, begun)], Concretes(plan, ps), [Concrete(plan, counted)]);
  }

  lemma EnrichPhaseRefines(w: World, plan: Plan, p: Point)
    requires Hosts(w, plan) && Full(plan, p)
    ensures Enrich3(w, PlannedSummary(plan), Concrete(plan, p)) == Concretes(plan, EnrichPhase(p))
  {
    hide Concretes, Hosts, PlannedSummary, Phase3, EnrichAll, Batches;
    var begun := p.(phase := InEnrichment);
    ReadableHost(w, plan);
    Phase3Refines(w, plan, begun, 0);
    ConcretesOne(plan, begun);
    ConcretesAppend(plan, [begun], EnrichAll(begun, 0));
  }

  lemma ReadableHost(w: World, plan: Plan)
    requires Hosts(w, plan)
    ensures Readable(w)
  {
  }

  // ------------------------------------------------------ phases 1 and 2

  lemma {:induction false} SameParents(a: seq<Batch>, b: seq<Batch>)
    requires |a| == |b| && forall i :: 0 <= i < |a| ==> a[i].parents == b[i].parents
    ensures ParentsOf(a) == ParentsOf(b)
  {
    if a != [] {
      SameParents(a[..|a| - 1], b[..|b| - 1]);
    }
  }

  lemma SummaryIsPlanned(w: World, plan: Plan, p: Point)
    requires Hosts(w, plan) && Full(plan, p)
    ensures SummaryFor(w, Concrete(plan, p)) == PlannedSummary(plan)
  {
    hide ParentsOf, Summarized, QuestionsIndependent, Fresh;
    BatchStatuses(plan, p);
    SameParents(Concrete(plan, p).batches, plan.base);
    var parents := ParentsOf(plan.base);
    assert IsOrder(w.fileOrder(|parents|), |parents|);
  }

  lemma SummarizationRefines(w: World, plan: Plan, p: Point)
    requires Hosts(w, plan) && Full(plan, p)
    ensures Summarize2(w, Concrete(plan, p)) == Concretes(plan, SummarizationPoints(p))
  {
    hide SummaryFor, Hosts, Batches, PlannedSummary;
    ReadableHost(w, plan);
    var begun := p.(phase := InSummarization);
    SummaryIsPlanned(w, plan, begun);
    TwoConcretes(plan, begun, begun.(summarized := true));
  }

  lemma FreshBatches(plan: Plan)
    ensures Batches(plan, Zeros(|plan.base|)) == plan.base
    ensures Batches(plan, []) == []
  {
    hide PlannedSummary;
  }

  lemma ChunkingRefines(w: World, plan: Plan, p: Point)
    requires Hosts(w, plan) && Valid(plan, p) && p.stages == []
    ensures Chunk1(w, Concrete(plan, p)) == Concretes(plan, ChunkingPoints(plan, p))
    ensures YieldsNothing(w.ext) <==> plan.base == []
  {
    hide PlannedSummary, ChunkedBatch, YieldsNothing, Sound, QuestionsIndependent, Concretes, Concrete;
    var begun := p.(phase := InChunking);
    PhaseOf(plan, p, InChunking);
    TwoConcretes(plan, begun, begun.(status := Failed));
    TwoConcretes(plan, begun, begun.(stages := Zeros(|plan.base|), total := 1));
    JustChunkedIs(plan, begun);
  }

  lemma JustChunkedIs(plan: Plan, p: Point)
    requires p.stages == []
    ensures var db := Concrete(plan, p);
            && Concrete(plan, p.(status := Failed)) == db.(status := Failed)
            && db.batches + plan.base == plan.base
            && Concrete(plan, p.(stages := Zeros(|plan.base|), total := 1)) == db.(batches := plan.base, total := 1)
  {
    hide PlannedSummary;
    FreshBatches(plan);
    assert Concrete(plan, p).batches == [];
  }

  // ------------------------------------------------------ the whole run

  lemma FlagsRefine(plan: Plan, p: Point)
    requires Sound(plan) && Valid(plan, p)
    ensures var db := Concrete(plan, p);
            && (AllChunked(db.batches) <==> p.stages != [])
            && (AllEnriched(db.batches) <==> SkipsEnrichment(p))
            && (AllEmbedded(db.batches) <==> SkipsEmbedding(p))
  {
    hide Fresh, Sound, PlannedSummary, At, EnrichedAt, EmbeddedAt;
    if p.stages != [] {
      BatchStatuses(plan, p);
    }
  }

  lemma FourConcretes(plan: Plan, a: seq<Point>, b: seq<Point>, c: seq<Point>, d: seq<Point>)
    ensures Concretes(plan, a + b + c + d)
            == Concretes(plan, a) + Concretes(plan, b) + Concretes(plan, c) + Concretes(plan, d)
  {
    hide Concretes;
    ConcretesAppend(plan, a + b + c, d);
    ConcretesAppend(plan, a + b, c);
    ConcretesAppend(plan, a, b);
  }

  lemma TwoRefines(w: World, plan: Plan, start: Point, p: Point, two: seq<Point>)
    requires two == if start.summarized then [] else SummarizationPoints(p)
    requires Hosts(w, plan) && Full(plan, p) && Valid(plan, p) && p.stages != [] && p.status == Processing
    requires start.summarized == p.summarized
    ensures
      var q := Last(p, two);
      && (if start.summarized then [] else Summarize2(w, Concrete(plan, p))) == Concretes(plan, two)
      && (start.summarized || SummaryFor(w, Concrete(plan, p).(phase := InSummarization)) == PlannedSummary(plan))
      && Valid(plan, q) && q.summarized && q.status == Processing && q.stages == p.stages
  {
    hide Concrete, Concretes, Hosts, Valid, Path, NotBehind, PlannedSummary, SummarizationPoints, Summarize2,
         SummaryFor;
    ReadableHost(w, plan);
    ConcretesOne(plan, p);
    if !start.summarized {
      SummarizationRefines(w, plan, p);
      SummarizationPath(plan, p);
      SummaryIsPlanned(w, plan, p.(phase := InSummarization));
      PhaseOf(plan, p, InSummarization);
    }
  }

  lemma PhaseOf(plan: Plan, p: Point, phase: Phase)
    ensures Concrete(plan, p).(phase := phase) == Concrete(plan, p.(phase := phase))
  {
  }

  lemma ThreeRefines(w: World, plan: Plan, start: Point, p: Point, three: seq<Point>)
    requires three == if SkipsEnrichment(start) then [] else EnrichPhase(p)
    requires Hosts(w, plan) && Full(plan, p) && Valid(plan, p) && p.stages != [] && p.status == Processing
             && p.summarized
    requires SkipsEnrichment(start) ==> Reached(p.stages, ENRICHED)
    ensures
      var q := Last(p, three);
      && (if SkipsEnrichment(start) then [] else Enrich3(w, PlannedSummary(plan), Concrete(plan, p)))
         == Concretes(plan, three)
      && Valid(plan, q) && q.summarized && q.status == Processing && |q.stages| == |p.stages|
         && Reached(q.stages, ENRICHED)
  {
    hide Concrete, Concretes, Hosts, Valid, Path, NotBehind, PlannedSummary, EnrichPhase, Enrich3, SkipsEnrichment;
    ReadableHost(w, plan);
    ConcretesOne(plan, p);
    if !SkipsEnrichment(start) {
      EnrichPhaseRefines(w, plan, p);
      EnrichPhasePath(plan, p);
    }
  }

  lemma FourRefines(w: World, plan: Plan, start: Point, p: Point, four: seq<Point>)
    requires four == if SkipsEmbedding(start) then [] else EmbedPhase(plan, p)
    requires Hosts(w, plan) && Full(plan, p) && Valid(plan, p) && p.stages != []
    requires p.status == Processing && p.summarized && Reached(p.stages, ENRICHED)
    ensures
      && (if SkipsEmbedding(start) then [] else Embed4(w, Concrete(plan, p))) == Concretes(plan, four)
      && Finish(Concrete(plan, Last(p, four))) == Concretes(plan, [Done(Last(p, four))])
  {
    hide Concretes, Hosts, Valid, PlannedSummary, Batches, EmbedPhase, Embed4, SkipsEmbedding;
    ReadableHost(w, plan);
    ConcretesOne(plan, p);
    if !SkipsEmbedding(start) {
      EmbedPhaseRefines(w, plan, p);
    }
    ConcretesOne(plan, Done(Last(p, four)));
  }

  lemma LaterRefines(w: World, plan: Plan, start: Point, p: Point, three: seq<Point>, four: seq<Point>)
    requires Hosts(w, plan) && Full(plan, p) && Valid(plan, p) && p.stages != [] && p.status == Processing && p.summarized
    requires SkipsEnrichment(start) ==> Reached(p.stages, ENRICHED)
    requires three == if SkipsEnrichment(start) then [] else EnrichPhase(p)
    requires four == if SkipsEmbedding(start) then [] else EmbedPhase(plan, Last(p, three))
    ensures
      var db, q := Concrete(plan, p), Last(p, three);
      && (if SkipsEnrichment(start) then [] else Enrich3(w, PlannedSummary(plan), db)) == Concretes(plan, three)
      && (if SkipsEmbedding(start) then [] else Embed4(w, Last(db, Concretes(plan, three)))) == Concretes(plan, four)
      && Finish(Last(Last(db, Concretes(plan, three)), Concretes(plan, four))) == Concretes(plan, [Done(Last(q, four))])
  {
    ReadableHost(w, plan);
    hide *;
    var q := Last(p, three);
    ThreeRefines(w, plan, start, p, three);
    LastConcrete(plan, p, three);
    FullAt(plan, p, q);
    FourRefines(w, plan, start, q, four);
    LastConcrete(plan, q, four);
  }

  /** The points of the phases after chunking, and the states that the run commits at them. */
  ghost predicate PhasesMatch(
    w: World, plan: Plan, start: Point, p: Point, two: seq<Point>, three: seq<Point>, four: seq<Point>)
    requires Readable(w)
  {
    var db, from, sum := Concrete(plan, p), Concrete(plan, start), PlannedSummary(plan);
    var db2 := Last(db, Concretes(plan, two));
    var db3 := Last(db2, Concretes(plan, three));
    && RestPoints(plan, start, p) == two + three + four + [Done(Last(Last(Last(p, two), three), four))]
    && Concretes(plan, two) == (if from.summary.None? then Summarize2(w, db) else [])
    && sum == (if from.summary.None? then SummaryFor(w, db.(phase := InSummarization)) else from.summary.value)
    && Concretes(plan, three) == (if AllEnriched(from.batches) then [] else Enrich3(w, sum, db2))
    && Concretes(plan, four) == (if AllEmbedded(from.batches) then [] else Embed4(w, db3))
    && Finish(Last(db3, Concretes(plan, four))) == Concretes(plan, [Done(Last(Last(Last(p, two), three), four))])
  }

  lemma PhasesRefine(w: World, plan: Plan, start: Point, p: Point, two: seq<Point>, three: seq<Point>, four: seq<Point>)
    requires Hosts(w, plan) && Valid(plan, start) && Valid(plan, p) && Full(plan, p)
    requires p.stages != [] && p.status == Processing && FlagsFit(start, p)
    requires two == if start.summarized then [] else SummarizationPoints(p)
    requires three == if SkipsEnrichment(start) then [] else EnrichPhase(Last(p, two))
    requires four == if SkipsEmbedding(start) then [] else EmbedPhase(plan, Last(Last(p, two), three))
    ensures Readable(w) && PhasesMatch(w, plan, start, p, two, three, four)
  {
    hide Hosts, Valid, Full, FlagsFit, SkipsEnrichment, SkipsEmbedding, Reached, Sound, Last, Concrete, Concretes,
         PlannedSummary, RestPoints, Summarize2, SummaryFor, Enrich3, Embed4, Finish, Done, AllEnriched, AllEmbedded,
         SummarizationPoints, EnrichPhase, EmbedPhase, Readable;
    ReadableHost(w, plan);
    SoundHost(w, plan);
    FlagsRefine(plan, start);
    SummaryRefines(plan, start);
    FlagsMean(start, p);
    TwoRefines(w, plan, start, p, two);
    LastConcrete(plan, p, two);
    FullAt(plan, p, Last(p, two));
    LaterRefines(w, plan, start, Last(p, two), three, four);
    RestPointsAre(plan, start, p, two, three, four);
  }

  lemma Assembled(w: World, plan: Plan, start: Point, p: Point, two: seq<Point>, three: seq<Point>, four: seq<Point>)
    requires Readable(w) && PhasesMatch(w, plan, start, p, two, three, four)
    ensures AfterChunking(w, Concrete(plan, start), Concrete(plan, p)) == Concretes(plan, RestPoints(plan, start, p))
  {
    hide AfterChunking, Last, Concrete, Concretes, PlannedSummary, RestPoints, Summarize2, SummaryFor, Enrich3, Embed4,
         Finish, Done, AllEnriched, AllEmbedded, Readable;
    FourConcretes(plan, two, three, four, [Done(Last(Last(Last(p, two), three), four))]);
    AfterChunkingIs(w, Concrete(plan, start), Concrete(plan, p), PlannedSummary(plan),
      Concretes(plan, two), Concretes(plan, three), Concretes(plan, four));
  }

  lemma RestRefines(w: World, plan: Plan, start: Point, p: Point)
    requires Hosts(w, plan) && Valid(plan, start) && Valid(plan, p) && Full(plan, p)
    requires p.stages != [] && p.status == Processing && FlagsFit(start, p)
    ensures AfterChunking(w, Concrete(plan, start), Concrete(plan, p)) == Concretes(plan, RestPoints(plan, start, p))
  {
    hide *;
    var two := if start.summarized then [] else SummarizationPoints(p);
    var three := if SkipsEnrichment(start) then [] else EnrichPhase(Last(p, two));
    var four := if SkipsEmbedding(start) then [] else EmbedPhase(plan, Last(Last(p, two), three));
    PhasesRefine(w, plan, start, p, two, three, four);
    Assembled(w, plan, start, p, two, three, four);
  }

  lemma FlagsMean(start: Point, p: Point)
    requires FlagsFit(start, p)
    ensures start.summarized == p.summarized
    ensures SkipsEnrichment(start) ==> Reached(p.stages, ENRICHED)
  {
  }

  lemma FullAt(plan: Plan, p: Point, q: Point)
    requires Full(plan, p) && |q.stages| == |p.stages|
    ensures Full(plan, q)
  {
  }

  lemma RestPointsAre(plan: Plan, start: Point, p: Point, two: seq<Point>, three: seq<Point>, four: seq<Point>)
    requires two == if start.summarized then [] else SummarizationPoints(p)
    requires three == if SkipsEnrichment(start) then [] else EnrichPhase(Last(p, two))
    requires four == if SkipsEmbedding(start) then [] else EmbedPhase(plan, Last(Last(p, two), three))
    ensures RestPoints(plan, start, p) == two + three + four + [Done(Last(Last(Last(p, two), three), four))]
  {
    hide SummarizationPoints, EnrichPhase, EmbedPhase, SkipsEnrichment, SkipsEmbedding, Last;
  }

  lemma SoundHost(w: World, plan: Plan)
    requires Hosts(w, plan)
    ensures Sound(plan)
  {
  }

  lemma SummaryRefines(plan: Plan, p: Point)
    ensures Concrete(plan, p).summary == if p.summarized then Some(PlannedSummary(plan)) else None
  {
  }

  lemma StartRefines(plan: Plan, p: Point)
    requires Valid(plan, p)
    ensures Concrete(plan, p).(status := Processing) == Concrete(plan, p.(status := Processing))
    ensures Valid(plan, p.(status := Processing))
    ensures p.stages != [] ==> Full(plan, p)
    ensures p.stages == [] ==> !p.summarized
  {
    hide Batches, PlannedSummary;
  }

  lemma FlagsFitSelf(p: Point)
    requires p.stages != []
    ensures FlagsFit(p, p)
  {
  }

  /** The states that an uncut run commits are those at the points it passes. */
  lemma RunRefines(w: World, plan: Plan, p: Point)
    requires Hosts(w, plan) && Valid(plan, p)
    ensures Commits(w, Concrete(plan, p)) == Concretes(plan, RunPoints(plan, p))
  {
    var start := p.(status := Processing);
    ReadableHost(w, plan);
    SoundHost(w, plan);
    StartRefines(plan, p);
    FlagsRefine(plan, start);
    hide Concrete, Concretes, Hosts, Valid, Full, PlannedSummary, AfterChunking, RestPoints, ChunkingPoints, Chunk1,
         AllChunked, YieldsNothing, FlagsFit;
    ConcretesOne(plan, start);
    if p.stages != [] {
      FlagsFitSelf(start);
      FullStart(plan, p, start);
      RestRefines(w, plan, start, start);
      ConcretesAppend(plan, [start], RestPoints(plan, start, start));
    } else {
      ChunkingRefines(w, plan, start);
      var one := ChunkingPoints(plan, start);
      var q := Last(start, one);
      LastConcrete(plan, start, one);
      ConcretesAppend(plan, [start], one);
      if plan.base == [] {
        ConcretesOne(plan, q);
        ConcretesAppend(plan, [start] + one, []);
      } else {
        JustChunked(plan, start);
        RestRefines(w, plan, start, q);
        ConcretesAppend(plan, [start] + one, RestPoints(plan, start, q));
      }
    }
  }

  lemma FullStart(plan: Plan, p: Point, start: Point)
    requires Full(plan, p) && start.stages == p.stages
    ensures Full(plan, start)
  {
  }

  lemma JustChunked(plan: Plan, start: Point)
    requires Valid(plan, start) && start.stages == [] && start.status == Processing && plan.base != []
    ensures var q := Last(start, ChunkingPoints(plan, start));
            && Valid(plan, q) && Full(plan, q) && q.stages != [] && q.status == Processing && FlagsFit(start, q)
  {
    ChunkingPath(plan, start);
  }
}
