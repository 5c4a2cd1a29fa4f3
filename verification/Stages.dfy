/** How far a batch has come: seven stages, and what each commit of phases 3 and 4 does to them. */
module Stages {
  import opened Sequences
  import opened Statuses
  import opened Rows
  import opened Enriching
  import opened Embedding

  const ENRICHING: nat := 1
  const ENRICHED: nat := 2
  const EMBEDDING: nat := 3
  const CHUNKS_STORED: nat := 4
  const ALIASES_STORED: nat := 5
  const EMBEDDED: nat := 6

  function Max(a: nat, b: nat): nat {
    if a < b then b else a
  }

  predicate Bare(c: ChunkRow, k: nat) {
    c.index == k && c.short.None? && c.full.None?
  }

  /** A batch as phase 1 leaves it. */
  ghost predicate Fresh(b: Batch) {
    && b.chunking == BatchCompleted && b.enrichment == BatchPending && b.embedding == BatchPending
    && b.count == |b.chunks| && b.aliases == []
    && HasParents(b) && ByParent(b.chunks)
    && forall k :: 0 <= k < |b.chunks| ==> Bare(b.chunks[k], k)
  }

  /** e is b with other prefixes and with aliases, marked as enriched. */
  ghost predicate Enriches(b: Batch, e: Batch) {
    && e == b.(enrichment := BatchCompleted, chunks := e.chunks, aliases := e.aliases)
    && |e.chunks| == |b.chunks|
    && forall k :: 0 <= k < |b.chunks| ==> e.chunks[k] == b.chunks[k].(prefix := e.chunks[k].prefix)
  }

  /** f is e with the embedder's vectors in its chunks, and with other vectors in its aliases. */
  ghost predicate Embeds(ext: External, e: Batch, f: Batch) {
    f == e.(chunks := EmbeddedChunks(ext, e.chunks), aliases := f.aliases) && |f.aliases| == |e.aliases|
  }

  /** A fresh batch b, which becomes e when it is enriched and f when it is embedded, once it has come to stage s. */
  function At(f: Batch, e: Batch, b: Batch, s: nat): Batch {
    if s == 0 then b
    else if s == ENRICHING then b.(enrichment := BatchProcessing)
    else
      e.(embedding := if s == ENRICHED then BatchPending else if s < EMBEDDED then BatchProcessing else BatchCompleted,
         chunks := if s < CHUNKS_STORED then e.chunks else f.chunks,
         aliases := if s < ALIASES_STORED then e.aliases else f.aliases)
  }

  // ------------------------------------------------------ what the commits do to the stage

  lemma BeginEnriching(f: Batch, e: Batch, b: Batch, s: nat)
    requires Fresh(b) && s < ENRICHED
    ensures At(f, e, b, s).(enrichment := BatchProcessing) == At(f, e, b, ENRICHING)
  {
  }

  /** Enriching a batch whose status is PROCESSING is enriching it as it was when fresh. */
  lemma Enrich(ext: External, sum: Summary, f: Batch, b: Batch, order: seq<nat>)
    requires Fresh(b) && IsOrder(order, |b.parents|)
    ensures var e := EnrichedBatch(ext, sum, b, order);
            && Enriches(b, e)
            && EnrichedBatch(ext, sum, At(f, e, b, ENRICHING), order) == e == At(f, e, b, ENRICHED)
  {
    hide AllAliases, SlotPrefixes, AllSlots;
  }

  lemma BeginEmbedding(f: Batch, e: Batch, b: Batch, s: nat)
    requires ENRICHED <= s < EMBEDDED
    ensures At(f, e, b, s).(embedding := BatchProcessing) == At(f, e, b, Max(s, EMBEDDING))
  {
  }

  lemma StoreChunks(ext: External, f: Batch, e: Batch, b: Batch, s: nat)
    requires Embeds(ext, e, f) && EMBEDDING <= s < EMBEDDED
    ensures var at := At(f, e, b, s);
            at.(chunks := EmbeddedChunks(ext, at.chunks)) == At(f, e, b, Max(s, CHUNKS_STORED))
  {
    hide EmbeddedChunks;
    ChunksTwice(ext, e.chunks);
  }

  lemma StoreAliases(ext: External, f: Batch, e: Batch, b: Batch, s: nat, order: seq<nat>)
    requires EMBEDDING <= s < EMBEDDED && (s >= CHUNKS_STORED || e.chunks == [])
    requires Embeds(ext, e, f) && IsOrder(order, |e.aliases|)
    requires EmbeddedAliases(ext, e.aliases, order) == f.aliases == EmbeddedAliases(ext, f.aliases, order)
    ensures IsOrder(order, |At(f, e, b, s).aliases|)
    ensures var at := At(f, e, b, s);
            at.(aliases := EmbeddedAliases(ext, at.aliases, order)) == At(f, e, b, Max(s, ALIASES_STORED))
  {
    hide EmbeddedAliases, IsOrder;
  }

  lemma FinishEmbedding(ext: External, f: Batch, e: Batch, b: Batch, s: nat)
    requires Embeds(ext, e, f) && EMBEDDING <= s < EMBEDDED
    requires s >= CHUNKS_STORED || e.chunks == []
    requires s >= ALIASES_STORED || e.aliases == []
    ensures At(f, e, b, s).(embedding := BatchCompleted) == At(f, e, b, EMBEDDED)
  {
  }

  // ------------------------------------------------------ what a stage means

  lemma StatusesAt(f: Batch, e: Batch, b: Batch, s: nat)
    requires Fresh(b) && Enriches(b, e) && |f.chunks| == |e.chunks|
    ensures var at := At(f, e, b, s);
            && at.chunking == BatchCompleted && at.count == |at.chunks| == |b.chunks|
            && at.index == b.index && at.parents == b.parents
            && (at.enrichment == BatchCompleted <==> s >= ENRICHED) && (at.enrichment == BatchPending <==> s == 0)
            && (at.embedding == BatchCompleted <==> s >= EMBEDDED) && (at.embedding == BatchPending <==> s <= ENRICHED)
  {
  }
}
