/** What a resumed run restores, over every history of runs, however each was cut short. */
module Resume {
  import opened Sequences
  import opened Statuses
  import opened Rows
  import opened Stages
  import opened Ingest
  import opened Progress
  import opened Refinement
  import opened Steps
  import opened Guarantees

  /**
   * Every run has the same services and reads its rows back in the same order; if the embedder treats
   * each question on its own, aliases may come back in any order.
   */
  ghost predicate AllAlike(home: World, events: seq<Event>) {
    forall i :: 0 <= i < |events| && events[i].Attempt? ==> SameReads(home, events[i].world)
  }

  function PlanOf(home: World, start: Db): Plan {
    if start.batches == []
    then Plan(home, if YieldsNothing(home.ext) then [] else [ChunkedBatch(home.ext)], 1)
    else Plan(home, start.batches, start.total)
  }

  function PointOf(start: Db): Point {
    Point(start.status, start.phase, start.total, start.completed, start.retries, Zeros(|start.batches|), false)
  }

  lemma PlanExt(home: World, start: Db)
    ensures PlanOf(home, start).home == home
    ensures PlanOf(home, start).base == [] <==> start.batches == [] && YieldsNothing(home.ext)
  {
  }

  // ------------------------------------------------------ the start is a point

  lemma StartIsPoint(home: World, start: Db)
    requires IsStart(start)
    ensures var plan := PlanOf(home, start);
            Sound(plan) && Valid(plan, PointOf(start)) && Concrete(plan, PointOf(start)) == start
  {
    hide Fresh, ChunkedBatch, Batches, PlannedSummary, YieldsNothing;
    ChunkedIsFresh(home.ext);
    FreshBatches(PlanOf(home, start));
    assert start.batches == [] ==> Zeros(|start.batches|) == [];
  }

  // ------------------------------------------------------ every history ends at a point

  lemma CutPoint(plan: Plan, p: Point, k: nat, ending: Ending) returns (q: Point)
    requires Valid(plan, p)
    ensures Cut(Concrete(plan, p), k, ending) == Concrete(plan, q) && Valid(plan, q) && NotBehind(p, q)
  {
    hide Batches, PlannedSummary, FromScratch;
    q := match ending
      case Crashed => p
      case Raised => if k == 0 then p.(status := Failed) else p.(status := Failed, retries := p.retries + 1)
      case TimedOut => p.(status := Failed);
  }

  lemma NotBehindSelf(p: Point)
    ensures NotBehind(p, p)
  {
  }

  lemma PrefixPoint(w: World, plan: Plan, p: Point, k: nat) returns (q: Point)
    requires Hosts(w, plan) && Valid(plan, p) && Readable(w) && k <= |Commits(w, Concrete(plan, p))|
    ensures Last(Concrete(plan, p), Commits(w, Concrete(plan, p))[..k]) == Concrete(plan, q)
    ensures Valid(plan, q) && NotBehind(p, q)
  {
    hide Hosts, Valid, NotBehind, Concrete, Commits, RunPoints, Path;
    RunRefines(w, plan, p);
    RunIsPath(plan, p);
    NotBehindSelf(p);
    var ps := RunPoints(plan, p);
    q := p;
    if k > 0 {
      q := ps[k - 1];
      PathAt(plan, p, ps, k - 1);
    }
  }

  lemma RequeuePoint(plan: Plan, p: Point) returns (q: Point)
    requires Valid(plan, p)
    ensures After(Concrete(plan, p), Requeue) == Concrete(plan, q) && Valid(plan, q) && NotBehind(p, q)
  {
    hide Batches, PlannedSummary, FromScratch, Commits;
    q := if p.status == Processing then p.(status := Pending) else p;
  }

  lemma AfterPoint(plan: Plan, p: Point, e: Event) returns (q: Point)
    requires Valid(plan, p) && (e.Attempt? ==> Hosts(e.world, plan))
    ensures e.Attempt? ==> Readable(e.world)
    ensures After(Concrete(plan, p), e) == Concrete(plan, q) && Valid(plan, q) && NotBehind(p, q)
  {
    hide *;
    match e
    case Requeue =>
      q := RequeuePoint(plan, p);
    case Attempt(w, k, ending) =>
      ReadableHost(w, plan);
      var n := AttemptIs(Concrete(plan, p), w, k, ending);
      var r := PrefixPoint(w, plan, p, n);
      q := CutPoint(plan, r, n, ending);
      NotBehindTransitive(p, r, q);
  }

  lemma AllAlikePrefix(home: World, events: seq<Event>, n: nat)
    requires AllAlike(home, events) && n <= |events|
    ensures AllAlike(home, events[..n]) && AllReadable(events)
  {
  }

  /** After any history the database is that of some point, and no progress is lost on the way. */
  lemma {:induction false} HistoryPoint(home: World, start: Db, events: seq<Event>) returns (p: Point)
    requires IsStart(start) && AllAlike(home, events)
    ensures AllReadable(events)
    ensures var plan := PlanOf(home, start);
            && Sound(plan) && History(start, events) == Concrete(plan, p)
            && Valid(plan, p) && NotBehind(PointOf(start), p)
    decreases |events|
  {
    hide Sound, Valid, NotBehind, Concrete, After, IsStart, Readable, PointOf;
    var plan := PlanOf(home, start);
    StartIsPoint(home, start);
    NotBehindSelf(PointOf(start));
    AllAlikePrefix(home, events, |events|);
    if events == [] {
      p := PointOf(start);
    } else {
      var front, e := events[..|events| - 1], events[|events| - 1];
      AllAlikePrefix(home, events, |events| - 1);
      var q := HistoryPoint(home, start, front);
      p := AfterPoint(plan, q, e);
      NotBehindTransitive(PointOf(start), q, p);
    }
  }

  // ------------------------------------------------------ crash-resume equivalence

  /** Equal in everything but the retry counter and the count of completed batches. */
  predicate SameButCounters(a: Db, b: Db) {
    a.status == b.status && a.phase == b.phase && a.total == b.total && a.batches == b.batches && a.summary == b.summary
  }

  /** What an uncut run leaves, in terms of the plan alone. */
  predicate Ended(plan: Plan, total: nat, db: Db) {
    if plan.base == []
    then db.status == Failed && db.phase == InChunking && db.total == total && db.batches == [] && db.summary == None
    else
      && db.status == Ready && db.phase == NoPhase && db.total == plan.total
      && db.batches == Batches(plan, seq(|plan.base|, i => EMBEDDED)) && db.summary == Some(PlannedSummary(plan))
  }

  lemma FinishedIsEnded(plan: Plan, p: Point, q: Point)
    requires Valid(plan, p) && Valid(plan, q)
    requires if p.stages == [] && plan.base == []
             then q == p.(status := Failed, phase := InChunking)
             else Finished(p.(stages := q.stages, total := plan.total), q) && |q.stages| == |plan.base| && q.stages != []
    ensures Ended(plan, p.total, Concrete(plan, q))
  {
    TotalIsPlanned(plan, p);
    if plan.base != [] {
      StagesAtEnd(plan, q);
    }
    hide Valid, Batches, PlannedSummary;
    FreshBatches(plan);
  }

  lemma StagesAtEnd(plan: Plan, q: Point)
    requires Valid(plan, q)
    ensures |q.stages| == |plan.base| && Reached(q.stages, EMBEDDED) ==> q.stages == seq(|plan.base|, i => EMBEDDED)
  {
    hide FromScratch;
  }

  /** Where an uncut run ends does not depend on where it began. */
  lemma UncutEnds(w: World, plan: Plan, p: Point)
    requires Hosts(w, plan) && Valid(plan, p)
    ensures Readable(w) && Ended(plan, p.total, Uncut(w, Concrete(plan, p)))
  {
    ReadableHost(w, plan);
    UncutIs(w, Concrete(plan, p));
    hide *;
    RunRefines(w, plan, p);
    RunIsPath(plan, p);
    var ps := RunPoints(plan, p);
    LastConcrete(plan, p, ps);
    PathAt(plan, p, ps, |ps| - 1);
    LastOf(p, ps);
    FinishedIsEnded(plan, p, ps[|ps| - 1]);
  }

  lemma UncutIs(w: World, db: Db)
    requires Readable(w)
    ensures Uncut(w, db) == Last(db, Commits(w, db))
  {
  }

  lemma LastOf<T>(p: T, ps: seq<T>)
    requires ps != []
    ensures Last(p, ps) == ps[|ps| - 1]
  {
  }

  /**
   * Whatever runs a file has been through, each cut at any step and in any way, one more run that
   * is not cut leaves what a single uncut run would have left, for any services that answer the same
   * way every time. Rows may come back in any order, as long as it is the same in every run; aliases
   * may come back in another order each time if the embedder treats each question on its own.
   */
  lemma ResumeEquivalence(home: World, start: Db, events: seq<Event>, w: World, w0: World)
    requires IsStart(start) && AllAlike(home, events) && SameReads(home, w) && SameReads(home, w0)
    ensures AllReadable(events)
    ensures SameButCounters(Uncut(w, History(start, events)), Uncut(w0, start))
  {
    hide Concrete, Uncut, History, Batches, PlannedSummary, Sound, Readable, Valid, IsStart;
    var plan := PlanOf(home, start);
    var p := HistoryPoint(home, start, events);
    StartIsPoint(home, start);
    UncutEnds(w, plan, p);
    UncutEnds(w0, plan, PointOf(start));
    NothingPlanned(plan, PointOf(start), p);
  }

  lemma NothingPlanned(plan: Plan, p: Point, q: Point)
    requires Valid(plan, p) && Valid(plan, q) && NotBehind(p, q)
    ensures plan.base == [] ==> p.total == q.total
  {
  }

  // ------------------------------------------------------ the count of completed batches

  /** A run that embeds ends with its last batch, the count, and READY. */
  lemma EmbeddingTail(plan: Plan, start: Point, p: Point) returns (front: seq<Point>)
    requires Valid(plan, p) && p.stages != [] && p.status == Processing && FlagsFit(start, p) && !SkipsEmbedding(start)
    ensures var q := Last(p, front);
            && RestPoints(plan, start, p) == front + [q.(completed := |p.stages|), Done(q.(completed := |p.stages|))]
            && Valid(plan, q) && q.summarized && q.completed == p.completed
            && |q.stages| == |p.stages| && Reached(q.stages, EMBEDDED)
  {
    hide Valid, NotBehind, Path, SummarizationPoints, EnrichPhase, EmbedAll, SkipsEnrichment, SkipsEmbedding, Done;
    NoPath(plan, p);
    var two := if start.summarized then [] else SummarizationPoints(p);
    if !start.summarized {
      SummarizationPath(plan, p);
    }
    var p2 := Last(p, two);
    var three := if SkipsEnrichment(start) then [] else EnrichPhase(p2);
    if !SkipsEnrichment(start) {
      EnrichPhasePath(plan, p2);
    }
    var p3 := Last(p2, three);
    var begun := p3.(phase := InEmbedding);
    BeginPath(plan, p3, InEmbedding);
    var ps := EmbedAll(plan, begun, 0);
    EmbedAllPath(plan, begun, 0);
    front := two + three + ([begun] + ps);
    LastAppend(p, two, three);
    LastAppend(p, two + three, [begun] + ps);
    LastAppend(p3, [begun], ps);
    var q := Last(p, front);
    var counted := q.(completed := |p.stages|);
    assert EmbedPhase(plan, p3) == [begun] + ps + [counted];
    LastAppend(p3, [begun] + ps, [counted]);
    assert two + three + ([begun] + ps + [counted]) + [Done(counted)] == front + [counted, Done(counted)];
  }

  lemma FreshStart(plan: Plan, p: Point) returns (first: seq<Point>)
    requires Valid(plan, p) && plan.base != [] && !p.summarized && p.completed == 0
    ensures var start, q := p.(status := Processing), Last(p, first);
            && RunPoints(plan, p) == first + RestPoints(plan, start, q)
            && Valid(plan, q) && q.stages != [] && q.status == Processing && q.completed == 0
            && FlagsFit(start, q) && !SkipsEmbedding(start)
  {
    hide RestPoints, NotBehind, Path;
    var start := p.(status := Processing);
    assert p.stages != [] ==> p.stages[0] == 0;
    StartPath(plan, p);
    first := [start];
    if p.stages == [] {
      ChunkingPath(plan, start);
      LastAppend(p, [start], ChunkingPoints(plan, start));
      first := [start] + ChunkingPoints(plan, start);
    }
  }

  /** Once everything is embedded, a run only sets the status. */
  lemma NothingToDo(plan: Plan, p: Point)
    requires Valid(plan, p) && p.stages != [] && p.summarized && Reached(p.stages, EMBEDDED)
    ensures Last(p, RunPoints(plan, p)).status == Ready && Last(p, RunPoints(plan, p)).completed == p.completed
    ensures Last(p, RunPoints(plan, p)).stages == p.stages
  {
    hide EnrichPhase, EmbedPhase, SummarizationPoints;
    assert Reached(p.stages, ENRICHED);
    var start := p.(status := Processing);
    assert SkipsEnrichment(start) && SkipsEmbedding(start);
    assert RestPoints(plan, start, start) == [Done(start)];
    assert RunPoints(plan, p) == [start] + [Done(start)];
  }

  /**
   * The count itself is not restored by a resumed run: a run cut just before it commits the count
   * leaves a file that the next run makes READY with the count still at zero.
   */
  lemma CountCanStayStale(start: Db, w: World)
    requires IsStart(start) && Readable(w) && (start.batches != [] || !YieldsNothing(w.ext))
    ensures |Commits(w, start)| >= 2
    ensures var cut := After(start, Attempt(w, |Commits(w, start)| - 2, Crashed));
            var db := Uncut(w, cut);
            db.status == Ready && db.completed == 0 && EmbeddedCount(db.batches) > 0
  {
    hide IsStart, Valid, Concrete, Concretes, Readable, Path, RunPoints, RestPoints,
         Commits, History, PlanOf, PointOf, Fresh, Sound, NotBehind, FlagsFit, SkipsEmbedding, Done, After, Uncut, EmbeddedCount;
    var plan, p := PlanOf(w, start), PointOf(start);
    StartIsPoint(w, start);
    StartPoint(start);
    PlanExt(w, start);
    RunRefines(w, plan, p);
    var first := FreshStart(plan, p);
    var q := Last(p, first);
    var more := EmbeddingTail(plan, p.(status := Processing), q);
    var r := Last(q, more);
    LastAppend(p, first, more);
    var counted := r.(completed := |q.stages|);
    TailOfRun(plan, p, first + more, [counted, Done(counted)], RunPoints(plan, p));
    var k := |Commits(w, start)| - 2;
    var n := AttemptIs(start, w, k, Crashed);
    CrashIs(Concrete(plan, r), k);
    NothingToDo(plan, r);
    RunRefines(w, plan, r);
    LastConcrete(plan, r, RunPoints(plan, r));
    UncutIs(w, Concrete(plan, r));
    TotalIsPlanned(plan, r);
    AllCounted(plan, Last(r, RunPoints(plan, r)));
  }

  lemma StartPoint(start: Db)
    requires IsStart(start)
    ensures !PointOf(start).summarized && PointOf(start).completed == 0
  {
  }

  lemma CrashIs(db: Db, k: nat)
    ensures Cut(db, k, Crashed) == db
  {
  }

  lemma TailOfRun(plan: Plan, p: Point, front: seq<Point>, tail: seq<Point>, all: seq<Point>)
    requires all == front + tail
    ensures Concretes(plan, all)[..|front|] == Concretes(plan, front)
    ensures Last(Concrete(plan, p), Concretes(plan, front)) == Concrete(plan, Last(p, front))
  {
    ConcretesAppend(plan, front, tail);
    LastConcrete(plan, p, front);
  }

  lemma AllCounted(plan: Plan, p: Point)
    requires Sound(plan) && p.stages != [] && |p.stages| == |plan.base| && Reached(p.stages, EMBEDDED)
    ensures EmbeddedCount(Concrete(plan, p).batches) > 0
    ensures Concrete(plan, p).status == p.status && Concrete(plan, p).completed == p.completed
  {
    hide Batches, Fresh;
    BatchStatuses(plan, p);
    CountAll(Concrete(plan, p).batches);
  }
}
