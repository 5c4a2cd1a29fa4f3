/**
 * How far a file has come, without any of its data: the stage of each batch and the columns of the
 * file row. A run of the pipeline is a walk over these points, and the data follow from the point.
 */
module Progress {
  import opened Sequences
  import opened Statuses
  import opened Rows
  import opened Stages
  import opened Enriching
  import opened Embedding
  import opened Summarizing
  import opened Ingest

  datatype Point = Point(
    status: FileStatus, phase: Phase, total: nat, completed: nat, retries: nat, stages: seq<nat>, summarized: bool)

  /**
   * The services and the orders of reading, the batches of the file as they are, or will be, when
   * freshly chunked, and their number as the file row states it.
   */
  datatype Plan = Plan(home: World, base: seq<Batch>, total: nat)

  function PlannedSummary(plan: Plan): Summary {
    var parents := ParentsOf(plan.base);
    Summarized(plan.home.ext, Reordered(parents, OrderOr(plan.home.fileOrder(|parents|), |parents|)))
  }

  /** Batch i once it is enriched. */
  function EnrichedAt(plan: Plan, i: nat): Batch
    requires i < |plan.base|
  {
    var b := plan.base[i];
    EnrichedBatch(plan.home.ext, PlannedSummary(plan), b, OrderOr(plan.home.parentOrder(i, |b.parents|), |b.parents|))
  }

  /** Batch i once it is embedded. */
  function EmbeddedAt(plan: Plan, i: nat): Batch
    requires i < |plan.base|
  {
    var e := EnrichedAt(plan, i);
    var order := OrderOr(plan.home.aliasOrder(i, |e.aliases|), |e.aliases|);
    e.(chunks := EmbeddedChunks(plan.home.ext, e.chunks), aliases := EmbeddedAliases(plan.home.ext, e.aliases, order))
  }

  function Batches(plan: Plan, stages: seq<nat>): (batches: seq<Batch>)
    ensures |batches| == Min(|stages|, |plan.base|)
    ensures forall i :: 0 <= i < |batches| ==>
            batches[i] == At(EmbeddedAt(plan, i), EnrichedAt(plan, i), plan.base[i], stages[i])
  {
    seq(Min(|stages|, |plan.base|), i requires 0 <= i < Min(|stages|, |plan.base|) =>
      At(EmbeddedAt(plan, i), EnrichedAt(plan, i), plan.base[i], stages[i]))
  }

  /** The database at a point. */
  function Concrete(plan: Plan, p: Point): Db {
    Db(p.status, p.phase, p.total, p.completed, p.retries, Batches(plan, p.stages),
       if p.summarized then Some(PlannedSummary(plan)) else None)
  }

  function Concretes(plan: Plan, ps: seq<Point>): (dbs: seq<Db>)
    ensures |dbs| == |ps| && forall k :: 0 <= k < |ps| ==> dbs[k] == Concrete(plan, ps[k])
  {
    seq(|ps|, k requires 0 <= k < |ps| => Concrete(plan, ps[k]))
  }

  // ------------------------------------------------------ the walk

  function Bump(p: Point, i: nat, s: nat): (r: Point)
    requires i < |p.stages|
    ensures |r.stages| == |p.stages|
  {
    p.(stages := p.stages[i := Max(p.stages[i], s)])
  }

  function EnrichmentPoints(p: Point, i: nat): (ps: seq<Point>)
    requires i < |p.stages|
    ensures |Last(p, ps).stages| == |p.stages|
  {
    if p.stages[i] >= ENRICHED then [] else [Bump(p, i, ENRICHING), Bump(p, i, ENRICHED)]
  }

  function EnrichAll(p: Point, i: nat): seq<Point>
    requires i <= |p.stages|
    decreases |p.stages| - i
  {
    if i == |p.stages| then []
    else
      var ps := EnrichmentPoints(p, i);
      ps + EnrichAll(Last(p, ps), i + 1)
  }

  predicate HasChunks(plan: Plan, i: nat) {
    i < |plan.base| && EnrichedAt(plan, i).chunks != []
  }

  predicate HasAliases(plan: Plan, i: nat) {
    i < |plan.base| && EnrichedAt(plan, i).aliases != []
  }

  function ChunkPoints(plan: Plan, p: Point, i: nat): (ps: seq<Point>)
    requires i < |p.stages|
    ensures |Last(p, ps).stages| == |p.stages|
  {
    if HasChunks(plan, i) then [Bump(p, i, CHUNKS_STORED)] else []
  }

  function AliasPoints(plan: Plan, p: Point, i: nat): (ps: seq<Point>)
    requires i < |p.stages|
    ensures |Last(p, ps).stages| == |p.stages|
  {
    if HasAliases(plan, i) then [Bump(p, i, ALIASES_STORED)] else []
  }

  function EmbeddingPoints(plan: Plan, p: Point, i: nat): (ps: seq<Point>)
    requires i < |p.stages|
    ensures |Last(p, ps).stages| == |p.stages|
  {
    if p.stages[i] >= EMBEDDED then []
    else
      var a := Bump(p, i, EMBEDDING);
      var b := ChunkPoints(plan, a, i);
      var c := AliasPoints(plan, Last(a, b), i);
      [a] + b + c + [Bump(Last(Last(a, b), c), i, EMBEDDED)]
  }

  function EmbedAll(plan: Plan, p: Point, i: nat): seq<Point>
    requires i <= |p.stages|
    decreases |p.stages| - i
  {
    if i == |p.stages| then []
    else
      var ps := EmbeddingPoints(plan, p, i);
      ps + EmbedAll(plan, Last(p, ps), i + 1)
  }

  predicate Reached(stages: seq<nat>, s: nat) {
    forall i :: 0 <= i < |stages| ==> stages[i] >= s
  }

  function SummarizationPoints(p: Point): seq<Point> {
    var begun := p.(phase := InSummarization);
    [begun, begun.(summarized := true)]
  }

  function EnrichPhase(p: Point): seq<Point> {
    var begun := p.(phase := InEnrichment);
    [begun] + EnrichAll(begun, 0)
  }

  function EmbedPhase(plan: Plan, p: Point): seq<Point> {
    var begun := p.(phase := InEmbedding);
    var ps := EmbedAll(plan, begun, 0);
    [begun] + ps + [Last(begun, ps).(completed := |p.stages|)]
  }

  function Done(p: Point): Point {
    p.(status := Ready, phase := NoPhase)
  }

  predicate SkipsEnrichment(start: Point) {
    start.stages != [] && Reached(start.stages, ENRICHED)
  }

  predicate SkipsEmbedding(start: Point) {
    start.stages != [] && Reached(start.stages, EMBEDDED)
  }

  /** What follows phase 1; the flags come from the point at the start. */
  function RestPoints(plan: Plan, start: Point, p: Point): seq<Point> {
    var two := if start.summarized then [] else SummarizationPoints(p);
    var p2 := Last(p, two);
    var three := if SkipsEnrichment(start) then [] else EnrichPhase(p2);
    var p3 := Last(p2, three);
    var four := if SkipsEmbedding(start) then [] else EmbedPhase(plan, p3);
    two + three + four + [Done(Last(p3, four))]
  }

  function Zeros(n: nat): (zeros: seq<nat>)
    ensures |zeros| == n && forall i :: 0 <= i < n ==> zeros[i] == 0
  {
    seq(n, i => 0)
  }

  /** Phase 1 of a file that has no batch yet. */
  function ChunkingPoints(plan: Plan, p: Point): seq<Point> {
    var begun := p.(phase := InChunking);
    [begun, if plan.base == [] then begun.(status := Failed) else begun.(stages := Zeros(|plan.base|), total := 1)]
  }

  /** The points that an uncut run passes, in order. */
  function RunPoints(plan: Plan, p: Point): seq<Point> {
    var start := p.(status := Processing);
    if p.stages != [] then [start] + RestPoints(plan, start, start)
    else
      var one := ChunkingPoints(plan, start);
      [start] + one + if plan.base == [] then [] else RestPoints(plan, start, Last(start, one))
  }

  // ------------------------------------------------------ which points a run can reach

  ghost predicate Sound(plan: Plan) {
    forall i :: 0 <= i < |plan.base| ==> Fresh(plan.base[i])
  }

  /** The batches are those of phase 1. */
  ghost predicate FromScratch(plan: Plan) {
    plan.total == 1 && plan.base == if YieldsNothing(plan.home.ext) then [] else [ChunkedBatch(plan.home.ext)]
  }

  ghost predicate Valid(plan: Plan, p: Point) {
    && (p.stages == [] || |p.stages| == |plan.base|)
    && (forall i :: 0 <= i < |p.stages| ==> p.stages[i] <= EMBEDDED)
    && (if p.stages == [] then !p.summarized && FromScratch(plan) else p.total == plan.total)
    && (!p.summarized ==> forall i :: 0 <= i < |p.stages| ==> p.stages[i] == 0)
    && (forall i, j :: 0 <= i < |p.stages| && 0 <= j < |p.stages| && p.stages[i] >= EMBEDDING ==>
       p.stages[j] >= ENRICHED)
    && (p.completed > 0 ==> p.completed == |p.stages| && Reached(p.stages, EMBEDDED))
    && (p.status == Ready ==> p.stages != [] && Reached(p.stages, EMBEDDED) && p.summarized && p.phase == NoPhase)
  }

  /** q is at least as far as p. */
  ghost predicate NotBehind(p: Point, q: Point) {
    && (p.summarized ==> q.summarized)
    && (p.stages == [] || (|q.stages| == |p.stages| && forall i :: 0 <= i < |p.stages| ==> p.stages[i] <= q.stages[i]))
    && (q.stages == [] ==> q.total == p.total)
    && p.retries <= q.retries
  }

  /** Every step from p on is valid and loses nothing. */
  ghost predicate Path(plan: Plan, p: Point, ps: seq<Point>)
    decreases |ps|
  {
    ps == [] || (Valid(plan, ps[0]) && NotBehind(p, ps[0]) && Path(plan, ps[0], ps[1..]))
  }

  lemma NotBehindTransitive(p: Point, q: Point, r: Point)
    requires NotBehind(p, q) && NotBehind(q, r)
    ensures NotBehind(p, r)
  {
  }

  lemma {:induction false} PathAppend(plan: Plan, p: Point, a: seq<Point>, b: seq<Point>)
    requires Path(plan, p, a) && Path(plan, Last(p, a), b)
    ensures Path(plan, p, a + b)
    decreases |a|
  {
    hide Valid, NotBehind;
    if a == [] {
      assert a + b == b;
    } else {
      PathAppend(plan, a[0], a[1..], b);
      assert (a + b)[1..] == a[1..] + b;
    }
  }

  lemma PathOne(plan: Plan, p: Point, q: Point)
    requires Valid(plan, q) && NotBehind(p, q)
    ensures Path(plan, p, [q])
  {
    hide Valid, NotBehind;
    assert [q][1..] == [];
  }

  lemma NoPath(plan: Plan, p: Point)
    ensures Path(plan, p, []) && Last(p, []) == p
  {
  }

  /** Whatever point of a path is taken, it is valid and not behind the start. */
  lemma {:induction false} PathAt(plan: Plan, p: Point, ps: seq<Point>, k: nat)
    requires Path(plan, p, ps) && k < |ps|
    ensures Valid(plan, ps[k]) && NotBehind(p, ps[k])
    decreases k
  {
    hide Valid, NotBehind;
    if k > 0 {
      PathAt(plan, ps[0], ps[1..], k - 1);
      NotBehindTransitive(p, ps[0], ps[k]);
    }
  }

  // ------------------------------------------------------ a run is a path

  lemma BumpPath(plan: Plan, p: Point, i: nat, s: nat)
    requires Valid(plan, p) && i < |p.stages| && p.summarized && p.status == Processing
    requires s <= EMBEDDED && (s >= EMBEDDING ==> Reached(p.stages, ENRICHED))
    ensures Valid(plan, Bump(p, i, s)) && Path(plan, p, [Bump(p, i, s)])
  {
    PathOne(plan, p, Bump(p, i, s));
  }

  lemma {:induction false} EnrichAllPath(plan: Plan, p: Point, i: nat)
    requires Valid(plan, p) && i <= |p.stages| && p.summarized && p.status == Processing
    requires forall j :: 0 <= j < i ==> p.stages[j] >= ENRICHED
    ensures var q := Last(p, EnrichAll(p, i));
            && Path(plan, p, EnrichAll(p, i))
            && Valid(plan, q) && q == p.(stages := q.stages) && |q.stages| == |p.stages| && Reached(q.stages, ENRICHED)
    decreases |p.stages| - i
  {
    hide Valid, Path, EnrichmentPoints;
    NoPath(plan, p);
    if i < |p.stages| {
      var ps := EnrichmentPoints(p, i);
      var q := Last(p, ps);
      EnrichmentPath(plan, p, i);
      EnrichAllPath(plan, q, i + 1);
      PathAppend(plan, p, ps, EnrichAll(q, i + 1));
      LastAppend(p, ps, EnrichAll(q, i + 1));
    }
  }

  lemma EnrichmentPath(plan: Plan, p: Point, i: nat)
    requires Valid(plan, p) && i < |p.stages| && p.summarized && p.status == Processing
    ensures var q := Last(p, EnrichmentPoints(p, i));
            && Path(plan, p, EnrichmentPoints(p, i)) && Valid(plan, q)
            && q == p.(stages := q.stages) && q.stages == p.stages[i := Max(p.stages[i], ENRICHED)]
  {
    hide Valid, Path;
    if p.stages[i] < ENRICHED {
      var a, b := Bump(p, i, ENRICHING), Bump(p, i, ENRICHED);
      BumpPath(plan, p, i, ENRICHING);
      BumpPath(plan, a, i, ENRICHED);
      assert Bump(a, i, ENRICHED) == b;
      PathAppend(plan, p, [a], [b]);
      assert [a] + [b] == [a, b];
    } else {
      NoPath(plan, p);
    }
  }

  lemma EmbeddingPath(plan: Plan, p: Point, i: nat)
    requires Valid(plan, p) && i < |p.stages| && p.summarized && p.status == Processing && Reached(p.stages, ENRICHED)
    ensures var q := Last(p, EmbeddingPoints(plan, p, i));
            && Path(plan, p, EmbeddingPoints(plan, p, i)) && Valid(plan, q)
            && q == p.(stages := q.stages) && q.stages == p.stages[i := Max(p.stages[i], EMBEDDED)]
  {
    hide Valid, Path, HasChunks, HasAliases;
    NoPath(plan, p);
    if p.stages[i] < EMBEDDED {
      var a := Bump(p, i, EMBEDDING);
      BumpPath(plan, p, i, EMBEDDING);
      var b := ChunkPoints(plan, a, i);
      NoPath(plan, a);
      BumpPath(plan, a, i, CHUNKS_STORED);
      PathAppend(plan, p, [a], b);
      var a2 := Last(a, b);
      var c := AliasPoints(plan, a2, i);
      NoPath(plan, a2);
      BumpPath(plan, a2, i, ALIASES_STORED);
      PathAppend(plan, p, [a] + b, c);
      var a3 := Last(a2, c);
      BumpPath(plan, a3, i, EMBEDDED);
      PathAppend(plan, p, [a] + b + c, [Bump(a3, i, EMBEDDED)]);
    }
  }

  lemma {:induction false} EmbedAllPath(plan: Plan, p: Point, i: nat)
    requires Valid(plan, p) && i <= |p.stages| && p.summarized && p.status == Processing && Reached(p.stages, ENRICHED)
    requires forall j :: 0 <= j < i ==> p.stages[j] >= EMBEDDED
    ensures var q := Last(p, EmbedAll(plan, p, i));
            && Path(plan, p, EmbedAll(plan, p, i))
            && Valid(plan, q) && q == p.(stages := q.stages) && |q.stages| == |p.stages| && Reached(q.stages, EMBEDDED)
    decreases |p.stages| - i
  {
    hide Valid, Path, EmbeddingPoints;
    NoPath(plan, p);
    if i < |p.stages| {
      var ps := EmbeddingPoints(plan, p, i);
      var q := Last(p, ps);
      EmbeddingPath(plan, p, i);
      EmbedAllPath(plan, q, i + 1);
      PathAppend(plan, p, ps, EmbedAll(plan, q, i + 1));
      LastAppend(p, ps, EmbedAll(plan, q, i + 1));
    }
  }

  lemma SummarizationPath(plan: Plan, p: Point)
    requires Valid(plan, p) && p.stages != [] && p.status == Processing
    ensures var q := Last(p, SummarizationPoints(p));
            Path(plan, p, SummarizationPoints(p)) && Valid(plan, q) && q == p.(phase := InSummarization, summarized := true)
  {
    var begun := p.(phase := InSummarization);
    BeginPath(plan, p, InSummarization);
    PathOne(plan, begun, begun.(summarized := true));
    assert Valid(plan, begun.(summarized := true));
    hide Valid, NotBehind, Path;
    PathAppend(plan, p, [begun], [begun.(summarized := true)]);
    assert SummarizationPoints(p) == [begun] + [begun.(summarized := true)];
  }

  lemma EnrichPhasePath(plan: Plan, p: Point)
    requires Valid(plan, p) && p.stages != [] && p.summarized && p.status == Processing
    ensures var q := Last(p, EnrichPhase(p));
            && Path(plan, p, EnrichPhase(p)) && Valid(plan, q)
            && q == p.(phase := InEnrichment, stages := q.stages) && |q.stages| == |p.stages|
               && Reached(q.stages, ENRICHED)
  {
    hide Valid, NotBehind, Path;
    var begun := p.(phase := InEnrichment);
    BeginPath(plan, p, InEnrichment);
    EnrichAllPath(plan, begun, 0);
    PathAppend(plan, p, [begun], EnrichAll(begun, 0));
    LastAppend(p, [begun], EnrichAll(begun, 0));
  }

  lemma BeginPath(plan: Plan, p: Point, phase: Phase)
    requires Valid(plan, p) && p.status == Processing
    ensures var begun := p.(phase := phase); Valid(plan, begun) && Path(plan, p, [begun])
  {
    PathOne(plan, p, p.(phase := phase));
  }

  lemma CountPath(plan: Plan, p: Point)
    requires Valid(plan, p) && Reached(p.stages, EMBEDDED)
    ensures var counted := p.(completed := |p.stages|); Valid(plan, counted) && Path(plan, p, [counted])
  {
    PathOne(plan, p, p.(completed := |p.stages|));
  }

  lemma EmbedPhasePath(plan: Plan, p: Point)
    requires Valid(plan, p) && p.stages != [] && p.summarized && p.status == Processing && Reached(p.stages, ENRICHED)
    ensures var q := Last(p, EmbedPhase(plan, p));
            && Path(plan, p, EmbedPhase(plan, p)) && Valid(plan, q)
            && q == p.(phase := InEmbedding, stages := q.stages, completed := |p.stages|)
            && |q.stages| == |p.stages| && Reached(q.stages, EMBEDDED)
  {
    hide Valid, NotBehind, Path, EmbedAll, Reached;
    var begun := p.(phase := InEmbedding);
    BeginPath(plan, p, InEmbedding);
    var ps := EmbedAll(plan, begun, 0);
    EmbedAllPath(plan, begun, 0);
    var done := Last(begun, ps);
    CountPath(plan, done);
    var counted := done.(completed := |p.stages|);
    PathAppend(plan, p, [begun], ps);
    LastAppend(p, [begun], ps);
    PathAppend(plan, p, [begun] + ps, [counted]);
  }

  /** The flags read at the start skip nothing that is still to be done. */
  ghost predicate FlagsFit(start: Point, p: Point) {
    && start.summarized == p.summarized
    && (SkipsEnrichment(start) ==> Reached(p.stages, ENRICHED))
    && (SkipsEmbedding(start) ==> Reached(p.stages, EMBEDDED))
  }

  /** The point at which everything is done. */
  ghost predicate Finished(p: Point, q: Point) {
    && q.status == Ready && q.phase == NoPhase && q.summarized
    && |q.stages| == |p.stages| && Reached(q.stages, EMBEDDED)
    && q.total == p.total && q.retries == p.retries
  }

  lemma RestIsPath(plan: Plan, start: Point, p: Point)
    requires Valid(plan, p) && p.stages != [] && p.status == Processing && FlagsFit(start, p)
    ensures Path(plan, p, RestPoints(plan, start, p))
    ensures Finished(p, Last(p, RestPoints(plan, start, p)))
  {
    hide Valid, NotBehind, Path, SummarizationPoints, EnrichPhase, EmbedPhase, SkipsEnrichment, SkipsEmbedding;
    NoPath(plan, p);
    var two := if start.summarized then [] else SummarizationPoints(p);
    if !start.summarized {
      SummarizationPath(plan, p);
    }
    var p2 := Last(p, two);
    NoPath(plan, p2);
    var three := if SkipsEnrichment(start) then [] else EnrichPhase(p2);
    if !SkipsEnrichment(start) {
      EnrichPhasePath(plan, p2);
    }
    var p3 := Last(p2, three);
    NoPath(plan, p3);
    assert p3.summarized && p3.status == Processing && Reached(p3.stages, ENRICHED) && |p3.stages| == |p.stages|;
    SkipsBoth(start);
    RestEnds(plan, start, p3);
    var four := if SkipsEmbedding(start) then [] else EmbedPhase(plan, p3);
    LastAppend(p, two, three);
    PathAppend(plan, p, two, three);
    var end := four + [Done(Last(p3, four))];
    PathAppend(plan, p, two + three, end);
    LastAppend(p, two + three, end);
    assert RestPoints(plan, start, p) == two + three + end;
  }

  lemma SkipsBoth(start: Point)
    ensures SkipsEmbedding(start) ==> SkipsEnrichment(start)
  {
  }

  lemma RestEnds(plan: Plan, start: Point, p: Point)
    requires Valid(plan, p) && p.stages != [] && p.summarized && p.status == Processing && Reached(p.stages, ENRICHED)
    requires SkipsEmbedding(start) ==> Reached(p.stages, EMBEDDED)
    ensures var four := if SkipsEmbedding(start) then [] else EmbedPhase(plan, p);
            var end := four + [Done(Last(p, four))];
            Path(plan, p, end) && Finished(p, Last(p, end))
  {
    hide NotBehind, Path, EmbedPhase, SkipsEmbedding;
    NoPath(plan, p);
    var four := if SkipsEmbedding(start) then [] else EmbedPhase(plan, p);
    if !SkipsEmbedding(start) {
      EmbedPhasePath(plan, p);
    }
    var q := Last(p, four);
    NotBehindDone(q);
    PathOne(plan, q, Done(q));
    hide Valid;
    PathAppend(plan, p, four, [Done(q)]);
  }

  lemma NotBehindDone(q: Point)
    ensures NotBehind(q, Done(q))
  {
  }

  lemma ChunkingPath(plan: Plan, p: Point)
    requires Valid(plan, p) && p.stages == [] && p.status == Processing
    ensures var q := Last(p, ChunkingPoints(plan, p));
            && Path(plan, p, ChunkingPoints(plan, p)) && Valid(plan, q)
            && q == (if plan.base == [] then p.(phase := InChunking, status := Failed)
                     else p.(phase := InChunking, stages := Zeros(|plan.base|), total := 1))
  {
    var begun := p.(phase := InChunking);
    PathOne(plan, p, begun);
    var next := if plan.base == [] then begun.(status := Failed) else begun.(stages := Zeros(|plan.base|), total := 1);
    PathOne(plan, begun, next);
    assert Valid(plan, next);
    hide Valid, NotBehind, Path;
    PathAppend(plan, p, [begun], [next]);
    assert ChunkingPoints(plan, p) == [begun] + [next];
  }

  lemma StartPath(plan: Plan, p: Point)
    requires Valid(plan, p)
    ensures var start := p.(status := Processing); Valid(plan, start) && Path(plan, p, [start])
  {
    PathOne(plan, p, p.(status := Processing));
  }

  /** An uncut run keeps every point valid, never loses progress, and finishes unless the file has no chunks. */
  lemma RunIsPath(plan: Plan, p: Point)
    requires Valid(plan, p)
    ensures Path(plan, p, RunPoints(plan, p)) && RunPoints(plan, p) != []
    ensures var q := Last(p, RunPoints(plan, p));
            if p.stages == [] && plan.base == []
            then q == p.(status := Failed, phase := InChunking)
            else Finished(p.(stages := q.stages, total := plan.total), q) && |q.stages| == |plan.base| && q.stages != []
  {
    var start := p.(status := Processing);
    StartPath(plan, p);
    TotalIsPlanned(plan, p);
    hide Valid, NotBehind, Path, RestPoints, ChunkingPoints;
    if p.stages != [] {
      RestIsPath(plan, start, start);
      PathAppend(plan, p, [start], RestPoints(plan, start, start));
      LastAppend(p, [start], RestPoints(plan, start, start));
    } else {
      var one := ChunkingPoints(plan, start);
      ChunkingPath(plan, start);
      PathAppend(plan, p, [start], one);
      LastAppend(p, [start], one);
      var q := Last(start, one);
      if plan.base == [] {
        assert RunPoints(plan, p) == [start] + one;
      } else {
        RestIsPath(plan, start, q);
        PathAppend(plan, p, [start] + one, RestPoints(plan, start, q));
        LastAppend(p, [start] + one, RestPoints(plan, start, q));
      }
    }
  }

  lemma TotalIsPlanned(plan: Plan, p: Point)
    requires Valid(plan, p)
    ensures if p.stages == [] then !p.summarized && plan.total == 1
            else p.total == plan.total && |p.stages| == |plan.base|
  {
  }
}
