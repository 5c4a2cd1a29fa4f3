/**
 * The ingestion queue of one server process: uploads, workers, shutdown, and the reaper that runs
 * at start-up. A run is any sequence of the steps below; a step that is not possible changes nothing.
 */
module IngestQueue {
  import opened Sequences
  import opened Statuses

  type FileId = string
  type WorkerId = nat

  const MAX_SIGNED_UPLOAD_BYTES: nat := 5 * 1024 * 1024 * 1024

  datatype FileRow = FileRow(tenant: string, size: nat, status: FileStatus, created: nat, updated: nat)

  /** Where a worker is in its loop: it took the id, saw the file PENDING, committed PROCESSING, or the outcome. */
  datatype Stage = Got | Admitted | Running | Ended
  datatype Job = Job(file: FileId, stage: Stage)

  datatype State = State(
    up: bool,
    files: map<FileId, FileRow>,
    queue: seq<FileId>,
    held: map<WorkerId, Job>,
    unfinished: int,
    completing: set<FileId>,  // completed in the database, and not enqueued yet
    dead: set<WorkerId>,      // workers whose loop an exception has ended
    known: set<FileId>,       // history: every id ever created
    stranded: set<FileId>)    // history: PENDING files let go by this process without an outcome

  datatype Event =
    | CreateUpload(tenant: string, id: FileId, size: nat, now: nat)
    | CompleteUpload(tenant: string, id: FileId, blob: Option<nat>, now: nat)  // blob: the size of the stored object
    | FinishUpload(id: FileId, refreshed: bool)  // the record is read again after the commit, and then enqueued
    | Delete(tenant: string, id: FileId)
    | Get(worker: WorkerId)
    | Admit(worker: WorkerId)
    | Begin(worker: WorkerId, now: nat)
    | Touch(worker: WorkerId, now: nat)
    | End(worker: WorkerId, success: bool, now: nat)
    | Overrule(worker: WorkerId, now: nat)  // a timeout or an error while the last commit returns
    | Done(worker: WorkerId)
    | Die(worker: WorkerId)  // reading the status, or a handler's own commit, raises: the loop ends
    | Shutdown
    | Boot(rows: seq<FileId>, now: nat, stuckBefore: nat, staleBefore: nat)

  const START := State(false, map[], [], map[], 0, {}, {}, {}, {})

  predicate Has(files: map<FileId, FileRow>, id: FileId, status: FileStatus) {
    id in files && files[id].status == status
  }

  function SetStatus(files: map<FileId, FileRow>, id: FileId, status: FileStatus, now: nat): map<FileId, FileRow> {
    if id in files then files[id := files[id].(status := status, updated := now)] else files
  }

  // ------------------------------------------------------ the reaper

  predicate Stuck(row: FileRow, before: nat) {
    row.status == Processing && row.updated < before
  }

  predicate Stale(row: FileRow, before: nat) {
    row.status == Uploading && row.created < before
  }

  function ResetStuck(files: map<FileId, FileRow>, now: nat, before: nat): map<FileId, FileRow> {
    map id | id in files ::
      if Stuck(files[id], before) then files[id].(status := Pending, updated := now) else files[id]
  }

  function DropStale(files: map<FileId, FileRow>, before: nat): map<FileId, FileRow> {
    map id | id in files && !Stale(files[id], before) :: files[id]
  }

  /** The PENDING ones of some ids, in order. */
  function PendingOf(rows: seq<FileId>, files: map<FileId, FileRow>): seq<FileId> {
    if rows == [] then []
    else
      var front, id := PendingOf(rows[..|rows| - 1], files), rows[|rows| - 1];
      if Has(files, id, Pending) then front + [id] else front
  }

  /** `rows` is the table in the order in which the database returns it. */
  ghost predicate IsListing(rows: seq<FileId>, files: map<FileId, FileRow>) {
    Distinct(rows) && forall id :: id in rows <==> id in files
  }

  // ------------------------------------------------------ the steps

  /** `_queue.get()` by an idle worker. */
  function TakeFirst(s: State, w: WorkerId): State
    requires s.queue != []
  {
    s.(queue := s.queue[1..], held := s.held[w := Job(s.queue[0], Got)])
  }

  /** The worker's `finally`: the id is let go and the task counted as done. */
  function Release(s: State, w: WorkerId): State
    requires w in s.held
  {
    s.(held := s.held - {w}, unfinished := s.unfinished - 1)
  }

  /** A file that is let go while it is PENDING is out of reach for this process. */
  function Strand(s: State, id: FileId): State {
    if Has(s.files, id, Pending) then s.(stranded := s.stranded + {id}) else s
  }

  function Advance(s: State, w: WorkerId, stage: Stage): State
    requires w in s.held
  {
    s.(held := s.held[w := s.held[w].(stage := stage)])
  }

  /** A status commit by the worker that holds the file. */
  function Commit(s: State, w: WorkerId, stage: Stage, status: FileStatus, now: nat): State
    requires w in s.held
  {
    Advance(s, w, stage).(files := SetStatus(s.files, s.held[w].file, status, now))
  }

  function Next(s: State, e: Event): State {
    match e
    case CreateUpload(tenant, id, size, now) =>
      if !s.up || id in s.known || size > MAX_SIGNED_UPLOAD_BYTES then s
      else s.(files := s.files[id := FileRow(tenant, size, Uploading, now, now)], known := s.known + {id})
    case CompleteUpload(tenant, id, blob, now) =>
      if !s.up || !Has(s.files, id, Uploading) || s.files[id].tenant != tenant || blob.None? then s
      else s.(files := SetStatus(s.files[id := s.files[id].(size := blob.value)], id, Pending, now),
              completing := s.completing + {id})
    case FinishUpload(id, refreshed) =>
      if id !in s.completing then s
      else
        var t := s.(completing := s.completing - {id});
        if refreshed && id in s.files then t.(queue := s.queue + [id], unfinished := s.unfinished + 1)
        else Strand(t, id)
    case Delete(tenant, id) =>
      if !s.up || id !in s.files || s.files[id].tenant != tenant then s
      else s.(files := s.files - {id})
    case Get(w) =>
      if !s.up || w in s.held || w in s.dead || s.queue == [] then s
      else TakeFirst(s, w)
    case Admit(w) =>
      if w !in s.held || s.held[w].stage != Got then s
      else if Has(s.files, s.held[w].file, Pending) then Advance(s, w, Admitted)
      else Release(s, w)
    case Begin(w, now) =>
      if w !in s.held || s.held[w].stage != Admitted then s else Commit(s, w, Running, Processing, now)
    case Touch(w, now) =>
      if w !in s.held || s.held[w].stage != Running then s else Commit(s, w, Running, Processing, now)
    case End(w, success, now) =>
      // Only a running file can succeed; an admitted one can still time out or raise.
      if w !in s.held || (s.held[w].stage != Running && (success || s.held[w].stage != Admitted)) then s
      else Commit(s, w, Ended, if success then Ready else Failed, now)
    case Overrule(w, now) =>
      if w !in s.held || s.held[w].stage != Ended then s else Commit(s, w, Ended, Failed, now)
    case Done(w) =>
      if w !in s.held || s.held[w].stage != Ended then s else Release(s, w)
    case Die(w) =>
      if w !in s.held then s else Strand(Release(s, w).(dead := s.dead + {w}), s.held[w].file)
    case Shutdown =>
      s.(up := false, queue := [], held := map[], unfinished := 0, completing := {}, dead := {}, stranded := {})
    case Boot(rows, now, stuckBefore, staleBefore) =>
      if s.up then s
      else
        var reset := ResetStuck(s.files, now, stuckBefore);
        var queued := PendingOf(rows, reset);
        s.(up := true, files := DropStale(reset, staleBefore), queue := queued, unfinished := |queued|)
  }

  function Run(es: seq<Event>): State {
    if es == [] then START else Next(Run(es[..|es| - 1]), es[|es| - 1])
  }

  /** At each start-up the reaper's queries return the whole table. */
  ghost predicate ListsAll(es: seq<Event>) {
    forall i :: 0 <= i < |es| && es[i].Boot? ==> IsListing(es[i].rows, Run(es[..i]).files)
  }

  // ------------------------------------------------------ the invariant

  ghost predicate IsHeld(s: State, id: FileId) {
    exists w :: w in s.held && s.held[w].file == id
  }

  /** No id is waiting twice, held twice, or both. */
  ghost predicate Exclusive(s: State) {
    && Distinct(s.queue)
    && (forall v, w :: v in s.held && w in s.held && s.held[v].file == s.held[w].file ==> v == w)
    && (forall w :: w in s.held ==> s.held[w].file !in s.queue)
  }

  /** An id about to be enqueued, or stranded, is neither waiting nor held. */
  ghost predicate Apart(s: State) {
    && s.completing !! s.stranded
    && (forall id :: id in s.completing + s.stranded ==> id !in s.queue && !IsHeld(s, id))
    && (forall w :: w in s.held ==> w !in s.dead)
  }

  /** What the stage of the worker that holds an existing file says about its status. */
  predicate StageFits(stage: Stage, status: FileStatus) {
    match stage
    case Got => status == Pending
    case Admitted => status == Pending
    case Running => status == Processing
    case Ended => status == Ready || status == Failed
  }

  ghost predicate StatusesFit(s: State) {
    && (forall id :: id in s.queue && id in s.files ==> s.files[id].status == Pending)
    && (forall id :: id in s.completing + s.stranded && id in s.files ==> s.files[id].status == Pending)
    && (forall w :: w in s.held && s.held[w].file in s.files ==>
       StageFits(s.held[w].stage, s.files[s.held[w].file].status))
  }

  ghost predicate NothingLost(s: State) {
    s.up ==> forall id :: Has(s.files, id, Pending) ==>
      id in s.queue || IsHeld(s, id) || id in s.completing || id in s.stranded
  }

  ghost predicate Counted(s: State) {
    s.unfinished == |s.queue| + |s.held|
  }

  ghost predicate AllKnown(s: State) {
    && s.files.Keys <= s.known && s.completing <= s.known && s.stranded <= s.known
    && (forall id :: id in s.queue ==> id in s.known)
    && (forall w :: w in s.held ==> s.held[w].file in s.known)
  }

  ghost predicate DownIsEmpty(s: State) {
    !s.up ==> s.queue == [] && s.held == map[] && s.completing == {} && s.dead == {} && s.stranded == {}
  }

  ghost predicate Inv(s: State) {
    && Exclusive(s) && Apart(s) && StatusesFit(s) && NothingLost(s) && Counted(s)
    && AllKnown(s) && DownIsEmpty(s)
  }

  lemma NextKeepsInv(s: State, e: Event)
    requires Inv(s) && (e.Boot? ==> IsListing(e.rows, s.files))
    ensures Inv(Next(s, e))
  {
    match e
    case CreateUpload(_, _, _, _) => CreateKeepsInv(s, e);
    case CompleteUpload(_, _, _, _) => CompleteKeepsInv(s, e);
    case FinishUpload(id, refreshed) => FinishKeepsInv(s, id, refreshed);
    case Delete(_, _) => DeleteKeepsInv(s, e);
    case Get(w) => GetKeepsInv(s, w);
    case Die(w) => DieKeepsInv(s, w);
    case Shutdown =>
    case Boot(rows, now, stuckBefore, staleBefore) =>
      if !s.up {
        BootKeepsInv(s, rows, now, stuckBefore, staleBefore);
      }
    case _ => WorkerKeepsInv(s, e);
  }

  /** A step that lets every worker keep its id, and touches neither the queue nor the ids out of it. */
  lemma Frame(s: State, t: State)
    requires t.held.Keys == s.held.Keys && forall w :: w in s.held ==> t.held[w].file == s.held[w].file
    ensures forall id :: IsHeld(s, id) <==> IsHeld(t, id)
    ensures t.queue == s.queue && t.unfinished == s.unfinished && Counted(s) ==> Counted(t)
    ensures t.queue == s.queue && Exclusive(s) ==> Exclusive(t)
    ensures t.queue == s.queue && t.completing == s.completing && t.dead == s.dead && t.stranded == s.stranded ==>
              (Apart(s) ==> Apart(t))
  {
    forall id ensures IsHeld(s, id) <==> IsHeld(t, id) {
      if IsHeld(s, id) {
        var w :| w in s.held && s.held[w].file == id;
        assert w in t.held;
      }
      if IsHeld(t, id) {
        var w :| w in t.held && t.held[w].file == id;
        assert w in s.held;
      }
    }
    assert |s.held| == |s.held.Keys| && |t.held| == |t.held.Keys|;
  }

  lemma CreateKeepsInv(s: State, e: Event)
    requires Inv(s) && e.CreateUpload?
    ensures Inv(Next(s, e))
  {
    hide IsHeld, Exclusive, Apart, Counted;
    Frame(s, Next(s, e));
  }

  lemma CompleteKeepsInv(s: State, e: Event)
    requires Inv(s) && e.CompleteUpload?
    ensures Inv(Next(s, e))
  {
    hide Inv, Next;
    if Next(s, e) != s {
      UploadingIsApart(s, e);
      CompleteIs(s, e);
      var files := s.files[e.id := s.files[e.id].(size := e.blob.value, status := Pending, updated := e.now)];
      CompletedKeepsInv(s, e.id, files);
    }
  }

  /** An UPLOADING file is nowhere in the queue. */
  lemma UploadingIsApart(s: State, e: Event)
    requires Inv(s) && e.CompleteUpload? && Next(s, e) != s
    ensures Has(s.files, e.id, Uploading) && e.id in s.known && s.up
    ensures !IsHeld(s, e.id) && e.id !in s.queue && e.id !in s.completing && e.id !in s.stranded
  {
    hide Exclusive, Apart, NothingLost, Counted, DownIsEmpty;
    assert e.id !in s.completing + s.stranded;
    assert forall w :: w in s.held ==> s.held[w].file != e.id;
  }

  lemma CompleteIs(s: State, e: Event)
    requires e.CompleteUpload? && Next(s, e) != s
    ensures e.blob.Some? && e.id in s.files
    ensures var files := s.files[e.id := s.files[e.id].(size := e.blob.value, status := Pending, updated := e.now)];
            Next(s, e) == s.(files := files, completing := s.completing + {e.id})
  {
  }

  lemma CompletedKeepsInv(s: State, id: FileId, files: map<FileId, FileRow>)
    requires Inv(s) && s.up && id in s.files && id in s.known
    requires !IsHeld(s, id) && id !in s.queue && id !in s.completing && id !in s.stranded
    requires id in files && files == s.files[id := files[id]] && files[id].status == Pending
    ensures Inv(s.(files := files, completing := s.completing + {id}))
  {
    hide IsHeld, Exclusive, Apart, NothingLost, StatusesFit, Counted;
    var t := s.(files := files, completing := s.completing + {id});
    Frame(s, t);
    CompletedKeepsApart(s, t, id);
    CompletedKeepsStatuses(s, t, id);
  }

  lemma CompletedKeepsApart(s: State, t: State, id: FileId)
    requires Apart(s) && NothingLost(s) && id !in s.queue && !IsHeld(s, id) && id !in s.stranded && id in t.files
    requires t == s.(files := t.files, completing := s.completing + {id}) && t.files == s.files[id := t.files[id]]
    ensures Apart(t) && NothingLost(t)
  {
    hide IsHeld;
    Frame(s, t);
    assert forall other :: other in t.completing + t.stranded ==> other in s.completing + s.stranded || other == id;
  }

  lemma CompletedKeepsStatuses(s: State, t: State, id: FileId)
    requires StatusesFit(s) && !IsHeld(s, id) && id in t.files && t.files[id].status == Pending
    requires t == s.(files := t.files, completing := s.completing + {id}) && t.files == s.files[id := t.files[id]]
    ensures StatusesFit(t)
  {
    assert forall w :: w in s.held ==> s.held[w].file != id;
    assert forall other :: other in t.completing + t.stranded ==> other in s.completing + s.stranded || other == id;
  }

  lemma FinishKeepsInv(s: State, id: FileId, refreshed: bool)
    requires Inv(s)
    ensures Inv(Next(s, FinishUpload(id, refreshed)))
  {
    if id in s.completing {
      assert id in s.completing + s.stranded && id !in s.stranded;
      if refreshed && id in s.files {
        EnqueueKeepsInv(s, id);
      } else {
        DropKeepsInv(s, id);
      }
    }
  }

  lemma EnqueueKeepsInv(s: State, id: FileId)
    requires Inv(s) && id in s.completing && id !in s.queue && !IsHeld(s, id) && id !in s.stranded
    ensures Inv(s.(completing := s.completing - {id}, queue := s.queue + [id], unfinished := s.unfinished + 1))
  {
    hide IsHeld, Exclusive, Apart, NothingLost, StatusesFit;
    var t := s.(completing := s.completing - {id}, queue := s.queue + [id], unfinished := s.unfinished + 1);
    assert forall other :: other in t.queue <==> other in s.queue || other == id;
    EnqueueKeepsApart(s, t, id);
    EnqueueKeepsStatuses(s, t, id);
  }

  lemma EnqueueKeepsApart(s: State, t: State, id: FileId)
    requires Exclusive(s) && Apart(s) && NothingLost(s) && id !in s.queue && !IsHeld(s, id) && id !in s.stranded
    requires t == s.(completing := s.completing - {id}, queue := s.queue + [id], unfinished := t.unfinished)
    ensures Exclusive(t) && Apart(t) && NothingLost(t)
  {
    assert forall w :: w in s.held ==> s.held[w].file != id;
    hide IsHeld;
    Frame(s, t);
    assert forall other :: other in t.queue <==> other in s.queue || other == id;
    assert forall other :: other in t.completing + t.stranded ==> other in s.completing + s.stranded && other != id;
  }

  lemma EnqueueKeepsStatuses(s: State, t: State, id: FileId)
    requires StatusesFit(s) && id in s.completing
    requires t == s.(completing := s.completing - {id}, queue := s.queue + [id], unfinished := t.unfinished)
    ensures StatusesFit(t)
  {
    assert id in s.completing + s.stranded;
    assert forall other :: other in t.completing + t.stranded ==> other in s.completing + s.stranded;
  }

  lemma DropKeepsInv(s: State, id: FileId)
    requires Inv(s) && id in s.completing && id !in s.queue && !IsHeld(s, id) && id !in s.stranded
    ensures Inv(Strand(s.(completing := s.completing - {id}), id))
  {
    hide IsHeld, Exclusive, Apart, NothingLost, StatusesFit, Counted;
    var t := Strand(s.(completing := s.completing - {id}), id);
    Frame(s, t);
    DropKeepsApart(s, id);
    DropKeepsStatuses(s, id);
  }

  lemma DropKeepsApart(s: State, id: FileId)
    requires Apart(s) && NothingLost(s) && id in s.completing && id !in s.stranded
    ensures Apart(Strand(s.(completing := s.completing - {id}), id))
    ensures NothingLost(Strand(s.(completing := s.completing - {id}), id))
  {
    var t := Strand(s.(completing := s.completing - {id}), id);
    hide IsHeld;
    Frame(s, t);
    assert forall other :: other in t.completing + t.stranded ==> other in s.completing + s.stranded;
  }

  lemma DropKeepsStatuses(s: State, id: FileId)
    requires StatusesFit(s) && id in s.completing
    ensures StatusesFit(Strand(s.(completing := s.completing - {id}), id))
  {
    var t := Strand(s.(completing := s.completing - {id}), id);
    assert forall other :: other in t.completing + t.stranded ==> other in s.completing + s.stranded;
  }

  lemma DeleteKeepsInv(s: State, e: Event)
    requires Inv(s) && e.Delete?
    ensures Inv(Next(s, e))
  {
    hide IsHeld, Exclusive, Apart, Counted;
    Frame(s, Next(s, e));
  }

  lemma GetKeepsInv(s: State, w: WorkerId)
    requires Inv(s)
    ensures Inv(Next(s, Get(w)))
  {
    hide Exclusive, NothingLost, Counted, StatusesFit, Apart, AllKnown;
    if s.up && w !in s.held && w !in s.dead && s.queue != [] {
      TakeKeepsExclusive(s, w);
      TakeKeepsApart(s, w);
      TakeKeepsNothingLost(s, w);
      TakeKeepsStatuses(s, w);
      TakeKeepsCounted(s, w);
      TakeKeepsKnown(s, w);
    }
  }

  lemma TakeKeepsExclusive(s: State, w: WorkerId)
    requires Exclusive(s) && s.queue != [] && w !in s.held
    ensures Exclusive(TakeFirst(s, w))
  {
    assert forall i :: 0 <= i < |s.queue[1..]| ==> s.queue[1..][i] == s.queue[i + 1];
    assert s.queue[0] !in s.queue[1..];
    assert forall id :: id in s.queue[1..] ==> id in s.queue;
  }

  lemma TakeKeepsApart(s: State, w: WorkerId)
    requires Apart(s) && s.queue != [] && w !in s.held && w !in s.dead
    ensures Apart(TakeFirst(s, w))
  {
    var t := TakeFirst(s, w);
    forall id | id in s.completing + s.stranded ensures id !in t.queue && !IsHeld(t, id) {
      assert id !in s.queue && !IsHeld(s, id);
      assert s.queue == [s.queue[0]] + t.queue;
    }
  }

  lemma TakeKeepsNothingLost(s: State, w: WorkerId)
    requires NothingLost(s) && s.queue != [] && w !in s.held
    ensures NothingLost(TakeFirst(s, w))
  {
    var s' := TakeFirst(s, w);
    assert s.queue == [s.queue[0]] + s'.queue;
    forall id | id in s.queue || IsHeld(s, id)
      ensures id in s'.queue || IsHeld(s', id)
    {
      if id == s.queue[0] {
        assert w in s'.held && s'.held[w].file == id;
      } else if IsHeld(s, id) {
        var v :| v in s.held && s.held[v].file == id;
        assert v in s'.held && s'.held[v].file == id;
      }
    }
  }

  lemma TakeKeepsStatuses(s: State, w: WorkerId)
    requires StatusesFit(s) && s.queue != [] && w !in s.held
    ensures StatusesFit(TakeFirst(s, w))
  {
    assert s.queue == [s.queue[0]] + TakeFirst(s, w).queue;
  }

  lemma TakeKeepsCounted(s: State, w: WorkerId)
    requires Counted(s) && s.queue != [] && w !in s.held
    ensures Counted(TakeFirst(s, w))
  {
    var held := TakeFirst(s, w).held;
    assert held.Keys == s.held.Keys + {w} && |held| == |held.Keys| && |s.held| == |s.held.Keys|;
  }

  lemma TakeKeepsKnown(s: State, w: WorkerId)
    requires AllKnown(s) && s.queue != [] && w !in s.held
    ensures AllKnown(TakeFirst(s, w))
  {
    assert s.queue == [s.queue[0]] + TakeFirst(s, w).queue;
  }

  lemma WorkerKeepsInv(s: State, e: Event)
    requires Inv(s) && (e.Admit? || e.Begin? || e.Touch? || e.End? || e.Overrule? || e.Done?)
    ensures Inv(Next(s, e))
  {
    hide Release, Advance, Commit, Exclusive, NothingLost, Counted, Apart;
    match e
    case Admit(w) =>
      if w in s.held && s.held[w].stage == Got {
        if Has(s.files, s.held[w].file, Pending) {
          AdvanceKeepsInv(s, w);
        } else {
          ReleaseKeepsInv(s, w);
        }
      }
    case Begin(w, now) =>
      if w in s.held && s.held[w].stage == Admitted {
        CommitKeepsInv(s, w, Running, Processing, now);
      }
    case Touch(w, now) =>
      if w in s.held && s.held[w].stage == Running {
        CommitKeepsInv(s, w, Running, Processing, now);
      }
    case End(w, success, now) =>
      if w in s.held && (s.held[w].stage == Running || (!success && s.held[w].stage == Admitted)) {
        CommitKeepsInv(s, w, Ended, if success then Ready else Failed, now);
      }
    case Overrule(w, now) =>
      if w in s.held && s.held[w].stage == Ended {
        CommitKeepsInv(s, w, Ended, Failed, now);
      }
    case Done(w) =>
      if w in s.held && s.held[w].stage == Ended {
        ReleaseKeepsInv(s, w);
      }
    case _ =>
  }

  lemma ReleaseKeepsInv(s: State, w: WorkerId)
    requires Inv(s) && w in s.held && !Has(s.files, s.held[w].file, Pending)
    ensures Inv(Release(s, w))
  {
    var s' := Release(s, w);
    assert s'.held.Keys == s.held.Keys - {w};
    forall id | Has(s'.files, id, Pending) && s.up
      ensures id in s'.queue || IsHeld(s', id) || id in s'.completing || id in s'.stranded
    {
      if IsHeld(s, id) {
        var v :| v in s.held && s.held[v].file == id;
        assert v in s'.held;
      }
    }
  }

  /** The worker lets the id go for good; the file is stranded if it is still PENDING. */
  lemma DieKeepsInv(s: State, w: WorkerId)
    requires Inv(s)
    ensures Inv(Next(s, Die(w)))
  {
    hide Exclusive, NothingLost, Counted, StatusesFit, Apart, IsHeld;
    if w in s.held {
      LetGo(s, w);
      DieKeepsApart(s, w);
      DieKeepsRest(s, w);
    }
  }

  /** Only the worker's own file is no longer held. */
  lemma LetGo(s: State, w: WorkerId)
    requires Exclusive(s) && w in s.held
    ensures var t := Next(s, Die(w));
            && t.held.Keys == s.held.Keys - {w} && t.dead == s.dead + {w} && !IsHeld(t, s.held[w].file)
            && forall id :: id != s.held[w].file ==> (IsHeld(t, id) <==> IsHeld(s, id))
  {
    var file, t := s.held[w].file, Next(s, Die(w));
    forall id | id != file ensures IsHeld(t, id) <==> IsHeld(s, id) {
      if IsHeld(s, id) {
        var v :| v in s.held && s.held[v].file == id;
        assert v in t.held && t.held[v].file == id;
      }
      if IsHeld(t, id) {
        var v :| v in t.held && t.held[v].file == id;
        assert v in s.held && s.held[v].file == id;
      }
    }
  }

  lemma DieKeepsApart(s: State, w: WorkerId)
    requires Exclusive(s) && Apart(s) && NothingLost(s) && w in s.held
    ensures Exclusive(Next(s, Die(w))) && Apart(Next(s, Die(w))) && NothingLost(Next(s, Die(w)))
  {
    var file, t := s.held[w].file, Next(s, Die(w));
    LetGo(s, w);
    assert IsHeld(s, file);
    hide IsHeld;
    assert t.queue == s.queue && t.completing == s.completing && t.files == s.files;
    assert t.stranded == if Has(s.files, file, Pending) then s.stranded + {file} else s.stranded;
    assert file !in s.completing + s.stranded && file !in s.queue;
  }

  lemma DieKeepsRest(s: State, w: WorkerId)
    requires StatusesFit(s) && Counted(s) && w in s.held
    ensures StatusesFit(Next(s, Die(w))) && Counted(Next(s, Die(w)))
  {
    assert Next(s, Die(w)).held.Keys == s.held.Keys - {w};
  }

  lemma AdvanceKeepsInv(s: State, w: WorkerId)
    requires Inv(s) && w in s.held && Has(s.files, s.held[w].file, Pending)
    ensures Inv(Advance(s, w, Admitted))
  {
    hide IsHeld, Exclusive, Apart, Counted;
    var t := Advance(s, w, Admitted);
    assert t.held.Keys == s.held.Keys;
    Frame(s, t);
  }

  lemma CommitKeepsInv(s: State, w: WorkerId, stage: Stage, status: FileStatus, now: nat)
    requires Inv(s) && w in s.held && StageFits(stage, status) && status != Pending
    ensures Inv(Commit(s, w, stage, status, now))
  {
    hide IsHeld, Exclusive, Apart, Counted, NothingLost, StatusesFit;
    var t := Commit(s, w, stage, status, now);
    assert t.held.Keys == s.held.Keys && t.files.Keys == s.files.Keys;
    Frame(s, t);
    CommitKeepsStatuses(s, w, stage, status, now);
    CommitKeepsNothingLost(s, w, stage, status, now);
  }

  lemma CommitKeepsStatuses(s: State, w: WorkerId, stage: Stage, status: FileStatus, now: nat)
    requires StatusesFit(s) && Exclusive(s) && Apart(s) && w in s.held && StageFits(stage, status)
    ensures StatusesFit(Commit(s, w, stage, status, now))
  {
    var file := s.held[w].file;
    assert IsHeld(s, file) && file !in s.completing + s.stranded;
  }

  lemma CommitKeepsNothingLost(s: State, w: WorkerId, stage: Stage, status: FileStatus, now: nat)
    requires NothingLost(s) && w in s.held && status != Pending
    ensures NothingLost(Commit(s, w, stage, status, now))
  {
    hide IsHeld;
    Frame(s, Commit(s, w, stage, status, now));
  }

  lemma {:induction false} PendingOfMembers(rows: seq<FileId>, files: map<FileId, FileRow>)
    requires Distinct(rows)
    ensures Distinct(PendingOf(rows, files))
    ensures forall id :: id in PendingOf(rows, files) <==> id in rows && Has(files, id, Pending)
  {
    if rows != [] {
      var front, last := rows[..|rows| - 1], rows[|rows| - 1];
      PendingOfMembers(front, files);
      assert rows == front + [last];
    }
  }

  lemma BootKeepsInv(s: State, rows: seq<FileId>, now: nat, stuckBefore: nat, staleBefore: nat)
    requires Inv(s) && !s.up && IsListing(rows, s.files)
    ensures Inv(Next(s, Boot(rows, now, stuckBefore, staleBefore)))
  {
    PendingOfMembers(rows, ResetStuck(s.files, now, stuckBefore));
  }

  lemma {:induction false} RunKeepsInv(es: seq<Event>)
    requires ListsAll(es)
    ensures Inv(Run(es))
  {
    hide Next, Inv;
    if es == [] {
      StartInv();
    } else {
      var front := es[..|es| - 1];
      ListsAllPrefix(es, |front|);
      RunKeepsInv(front);
      NextKeepsInv(Run(front), es[|es| - 1]);
    }
  }

  lemma StartInv()
    ensures Inv(START)
  {
  }

  lemma ListsAllPrefix(es: seq<Event>, n: nat)
    requires ListsAll(es) && n <= |es|
    ensures ListsAll(es[..n])
  {
    forall i | 0 <= i < n && es[..n][i].Boot?
      ensures IsListing(es[..n][i].rows, Run(es[..n][..i]).files)
    {
      assert es[..n][..i] == es[..i];
    }
  }

  // ------------------------------------------------------ what the queue guarantees

  /**
   * Step i let the file go while it was PENDING: an exception ended the worker that held it, or the
   * request that had completed its upload failed before it enqueued it.
   */
  predicate LostAt(es: seq<Event>, i: nat, id: FileId)
    requires i < |es|
  {
    var s, e := Run(es[..i]), es[i];
    && Has(s.files, id, Pending)
    && (|| (e.Die? && e.worker in s.held && s.held[e.worker].file == id)
        || (e.FinishUpload? && e.id == id && id in s.completing && !e.refreshed))
  }

  /** That happened, and the process has not been shut down since. */
  ghost predicate Lost(es: seq<Event>, id: FileId) {
    exists i: nat :: i < |es| && LostAt(es, i, id) && forall j :: i < j < |es| ==> !es[j].Shutdown?
  }

  lemma LostStep(es: seq<Event>, id: FileId)
    requires es != []
    ensures var front, e := es[..|es| - 1], es[|es| - 1];
            Lost(es, id) <==> LostAt(es, |front|, id) || (Lost(front, id) && !e.Shutdown?)
  {
    hide LostAt;
    var front, last := es[..|es| - 1], |es| - 1;
    forall i: nat | i < last ensures LostAt(es, i, id) <==> LostAt(front, i, id) {
      SameLostAt(es, last, i, id);
    }
    if Lost(es, id) {
      var i: nat :| i < |es| && LostAt(es, i, id) && forall j :: i < j < |es| ==> !es[j].Shutdown?;
      if i < last {
        assert LostAt(front, i, id) && forall j :: i < j < last ==> front[j] == es[j];
      }
    }
    if Lost(front, id) && !es[last].Shutdown? {
      var i: nat :| i < last && LostAt(front, i, id) && forall j :: i < j < last ==> !front[j].Shutdown?;
      assert LostAt(es, i, id) && forall j :: i < j < last ==> front[j] == es[j];
    }
  }

  lemma SameLostAt(es: seq<Event>, n: nat, i: nat, id: FileId)
    requires i < n <= |es|
    ensures LostAt(es, i, id) <==> LostAt(es[..n], i, id)
  {
    assert es[..n][..i] == es[..i];
  }

  lemma StrandStep(s: State, e: Event, id: FileId)
    ensures id in Next(s, e).stranded <==>
              || (id in s.stranded && !e.Shutdown?)
              || (Has(s.files, id, Pending)
                  && (|| (e.Die? && e.worker in s.held && s.held[e.worker].file == id)
                      || (e.FinishUpload? && e.id == id && id in s.completing && !e.refreshed)))
  {
  }

  /** The ids recorded as stranded are those that were lost. */
  lemma {:induction false} StrandedAreLost(es: seq<Event>, id: FileId)
    ensures id in Run(es).stranded <==> Lost(es, id)
  {
    hide Next, Lost;
    if es == [] {
      NothingLostYet(id);
    } else {
      var front := es[..|es| - 1];
      StrandedAreLost(front, id);
      LostStep(es, id);
      StrandStep(Run(front), es[|es| - 1], id);
    }
  }

  lemma NothingLostYet(id: FileId)
    ensures !Lost([], id)
  {
  }

  /**
   * In every reachable state: who waits, who works, and what is counted. A PENDING file of a running
   * server is waiting, held or about to be enqueued exactly if it was not lost.
   */
  lemma QueueIsExclusive(es: seq<Event>)
    requires ListsAll(es)
    ensures
      var s := Run(es);
      && Exclusive(s)
      && s.unfinished == |s.queue| + |s.held|
      && (s.up ==> forall id :: Has(s.files, id, Pending) ==>
            (id in s.queue || IsHeld(s, id) || id in s.completing <==> !Lost(es, id)))
      && (forall id :: id in s.queue ==> !Has(s.files, id, Failed) && !Has(s.files, id, Ready))
  {
    hide Run, Lost, IsHeld;
    RunKeepsInv(es);
    forall id ensures id in Run(es).stranded <==> Lost(es, id) {
      StrandedAreLost(es, id);
    }
    if Run(es).up {
      InReach(Run(es));
    }
  }

  lemma InReach(s: State)
    requires Inv(s) && s.up
    ensures forall id :: Has(s.files, id, Pending) ==>
              (id in s.queue || IsHeld(s, id) || id in s.completing <==> id !in s.stranded)
  {
    hide Exclusive, StatusesFit, Counted, IsHeld;
    assert forall id :: id in s.stranded ==> id in s.completing + s.stranded;
  }

  /**
   * The exact condition: a PENDING file of a running server is out of reach, neither waiting nor held
   * nor about to be enqueued, if and only if an exception let it go since the last shutdown.
   */
  lemma StrandsExactly(es: seq<Event>, id: FileId)
    requires ListsAll(es) && Run(es).up && Has(Run(es).files, id, Pending)
    ensures var s := Run(es);
            id !in s.queue && !IsHeld(s, id) && id !in s.completing <==> Lost(es, id)
  {
    hide Run, Lost, IsHeld, Exclusive;
    QueueIsExclusive(es);
  }

  /** A lost file keeps its row, and no worker gets it, until it is deleted or the server is shut down. */
  lemma StrandedWait(es: seq<Event>, e: Event, id: FileId)
    requires ListsAll(es) && Run(es).up && Lost(es, id) && id in Run(es).files
    ensures Run(es).files[id].status == Pending
    ensures if id in Next(Run(es), e).files then Next(Run(es), e).files[id] == Run(es).files[id]
            else e.Delete? && e.id == id
    ensures id !in Next(Run(es), e).queue && !IsHeld(Next(Run(es), e), id)
    ensures Lost(es + [e], id) || e.Shutdown?
  {
    hide *;
    RunKeepsInv(es);
    StrandedAreLost(es, id);
    StrandedStep(Run(es), e, id);
    StillLost(es, e, id);
  }

  lemma StillLost(es: seq<Event>, e: Event, id: FileId)
    requires Lost(es, id)
    ensures Lost(es + [e], id) || e.Shutdown?
  {
    hide Lost;
    assert (es + [e])[..|es|] == es;
    LostStep(es + [e], id);
  }

  lemma StrandedStep(s: State, e: Event, id: FileId)
    requires Inv(s) && s.up && id in s.stranded && id in s.files
    ensures s.files[id].status == Pending
    ensures if id in Next(s, e).files then Next(s, e).files[id] == s.files[id] else e.Delete? && e.id == id
    ensures id !in Next(s, e).queue && !IsHeld(Next(s, e), id)
  {
    hide Exclusive, NothingLost, Counted, Inv;
    StrandedIsApart(s, id);
  }

  lemma StrandedIsApart(s: State, id: FileId)
    requires Inv(s) && id in s.stranded
    ensures id !in s.queue && id !in s.completing && id in s.known && (id in s.files ==> s.files[id].status == Pending)
    ensures forall w :: w in s.held ==> s.held[w].file != id
  {
    assert id in s.completing + s.stranded;
  }

  /** It does happen: the only worker dies when it reads the status, and the file is neither waiting nor held. */
  lemma PendingCanBeStranded(id: FileId)
    ensures
      var es := [Boot([], 0, 0, 0), CreateUpload("t", id, 1, 0), CompleteUpload("t", id, Some(1), 0),
                 FinishUpload(id, true), Get(0), Die(0)];
      var s := Run(es);
      ListsAll(es) && s.up && Has(s.files, id, Pending) && id !in s.queue && !IsHeld(s, id) && id !in s.completing
  {
    var es := [Boot([], 0, 0, 0), CreateUpload("t", id, 1, 0), CompleteUpload("t", id, Some(1), 0),
               FinishUpload(id, true), Get(0), Die(0)];
    RunOfSix(es);
    Uploaded(id);
    TakenAndLost(id);
    hide Run, Next;
    assert forall i :: 0 < i < |es| ==> !es[i].Boot?;
  }

  lemma Uploaded(id: FileId)
    ensures Next(Next(Next(Next(START, Boot([], 0, 0, 0)), CreateUpload("t", id, 1, 0)),
                      CompleteUpload("t", id, Some(1), 0)), FinishUpload(id, true))
         == State(true, map[id := FileRow("t", 1, Pending, 0, 0)], [id], map[], 1, {}, {}, {id}, {})
  {
    var s0 := Next(START, Boot([], 0, 0, 0));
    assert s0 == START.(up := true);
    var s1 := Next(s0, CreateUpload("t", id, 1, 0));
    assert s1.files == map[id := FileRow("t", 1, Uploading, 0, 0)];
    var s2 := Next(s1, CompleteUpload("t", id, Some(1), 0));
    assert s2.files == map[id := FileRow("t", 1, Pending, 0, 0)] && s2.completing == {id};
  }

  lemma TakenAndLost(id: FileId)
    ensures
      var s := State(true, map[id := FileRow("t", 1, Pending, 0, 0)], [id], map[], 1, {}, {}, {id}, {});
      var t := Next(Next(s, Get(0)), Die(0));
      t.up && Has(t.files, id, Pending) && id !in t.queue && !IsHeld(t, id) && id !in t.completing
  {
    var s := State(true, map[id := FileRow("t", 1, Pending, 0, 0)], [id], map[], 1, {}, {}, {id}, {});
    assert Next(s, Get(0)) == s.(queue := [], held := map[0 := Job(id, Got)]);
    assert Next(Next(s, Get(0)), Die(0)).held == map[];
  }

  lemma RunOfSix(es: seq<Event>)
    requires |es| == 6
    ensures Run(es[..0]) == START
    ensures Run(es) == Next(Next(Next(Next(Next(Next(START, es[0]), es[1]), es[2]), es[3]), es[4]), es[5])
  {
    hide Next;
    assert es[..0] == [] && es[..6] == es;
    RunNext(es, 0);
    RunNext(es, 1);
    RunNext(es, 2);
    RunNext(es, 3);
    RunNext(es, 4);
    RunNext(es, 5);
  }

  lemma RunNext(es: seq<Event>, i: nat)
    requires i < |es|
    ensures Run(es[..i + 1]) == Next(Run(es[..i]), es[i])
  {
    assert es[..i + 1][..i] == es[..i];
  }

  /** A worker drops an id only when the file is gone; an existing file it takes is always admitted. */
  lemma OnlyDeletedFilesAreSkipped(es: seq<Event>, w: WorkerId)
    requires ListsAll(es) && w in Run(es).held && Run(es).held[w].stage == Got
    ensures w in Next(Run(es), Admit(w)).held <==> Run(es).held[w].file in Run(es).files
  {
    hide Run, Exclusive, Apart, NothingLost, Counted, AllKnown, DownIsEmpty;
    RunKeepsInv(es);
  }

  /**
   * READY and FAILED are final: the row stays as it is until it is deleted, unless the attempt that
   * led to it is not quite over. Its own worker can then still turn it FAILED.
   */
  lemma OutcomesAreFinal(es: seq<Event>, e: Event, id: FileId)
    requires ListsAll(es)
    requires Has(Run(es).files, id, Ready) || Has(Run(es).files, id, Failed)
    ensures
      var s, t := Run(es), Next(Run(es), e);
      if id !in t.files then e.Delete? && e.id == id
      else if e.Overrule? && e.worker in s.held && s.held[e.worker] == Job(id, Ended)
      then t.files[id] == s.files[id].(status := Failed, updated := e.now)
      else t.files[id] == s.files[id]
  {
    hide *;
    RunKeepsInv(es);
    OutcomeKept(Run(es), e, id);
  }

  lemma OutcomeKept(s: State, e: Event, id: FileId)
    requires Inv(s) && (Has(s.files, id, Ready) || Has(s.files, id, Failed))
    ensures
      var t := Next(s, e);
      if id !in t.files then e.Delete? && e.id == id
      else if e.Overrule? && e.worker in s.held && s.held[e.worker] == Job(id, Ended)
      then t.files[id] == s.files[id].(status := Failed, updated := e.now)
      else t.files[id] == s.files[id]
  {
    hide Exclusive, NothingLost, Counted, PendingOf, Apart;
  }

  /**
   * What a worker commits to the row it holds, if that still exists: PROCESSING from the start of the
   * run on, then the outcome, and each time the moment of the commit, by which the reaper knows that
   * the run is alive. No other row changes.
   */
  lemma WorkerCommits(s: State, e: Event, w: WorkerId)
    requires w in s.held
    requires || (e.Begin? && e.worker == w && s.held[w].stage == Admitted)
             || (e.Touch? && e.worker == w && s.held[w].stage == Running)
             || (e.End? && e.worker == w && s.held[w].stage == Running)
             || (e.End? && e.worker == w && s.held[w].stage == Admitted && !e.success)
             || (e.Overrule? && e.worker == w && s.held[w].stage == Ended)
    ensures
      var id, t := s.held[w].file, Next(s, e);
      var status := if e.Begin? || e.Touch? then Processing else if e.End? && e.success then Ready else Failed;
      && t.files == (if id in s.files then s.files[id := s.files[id].(status := status, updated := e.now)] else s.files)
      && t.held == s.held[w := Job(id, if e.Begin? || e.Touch? then Running else Ended)]
      && t.queue == s.queue && t.unfinished == s.unfinished
  {
  }

  /** A file that is PROCESSING while no worker holds it keeps its row until it is deleted or the server restarts. */
  lemma OrphansWait(es: seq<Event>, e: Event, id: FileId)
    requires ListsAll(es) && Run(es).up
    requires Has(Run(es).files, id, Processing) && !IsHeld(Run(es), id)
    ensures if id in Next(Run(es), e).files then Next(Run(es), e).files[id] == Run(es).files[id]
            else e.Delete? && e.id == id
    ensures id !in Next(Run(es), e).queue && !IsHeld(Next(Run(es), e), id)
  {
    RunKeepsInv(es);
    OrphanStep(Run(es), e, id);
  }

  lemma OrphanStep(s: State, e: Event, id: FileId)
    requires s.up && StatusesFit(s) && s.files.Keys <= s.known
    requires Has(s.files, id, Processing) && !IsHeld(s, id)
    ensures if id in Next(s, e).files then Next(s, e).files[id] == s.files[id] else e.Delete? && e.id == id
    ensures id !in Next(s, e).queue && !IsHeld(Next(s, e), id)
  {
    assert forall w :: w in s.held ==> s.held[w].file != id;
    assert id !in s.queue && id !in s.completing + s.stranded;
  }

  /** A restart queues exactly the PENDING files and the PROCESSING ones past the threshold, each once. */
  lemma BootQueuesOnce(s: State, rows: seq<FileId>, now: nat, stuckBefore: nat, staleBefore: nat, id: FileId)
    requires !s.up && IsListing(rows, s.files)
    ensures
      var s' := Next(s, Boot(rows, now, stuckBefore, staleBefore));
      var stuck := id in s.files && s.files[id].status == Processing && s.files[id].updated < stuckBefore;
      var stale := id in s.files && s.files[id].status == Uploading && s.files[id].created < staleBefore;
      && multiset(s'.queue)[id] == (if stuck || (id in s.files && s.files[id].status == Pending) then 1 else 0)
      && (id in s'.files <==> id in s.files && !stale)
      && (id in s'.files ==>
            s'.files[id] == if stuck then s.files[id].(status := Pending, updated := now) else s.files[id])
      && s'.up && s'.unfinished == |s'.queue| && s'.held == s.held && s'.known == s.known
  {
    var reset := ResetStuck(s.files, now, stuckBefore);
    PendingOfMembers(rows, reset);
    DistinctMultiset(PendingOf(rows, reset), id);
  }

  lemma {:induction false} DistinctMultiset(ids: seq<FileId>, id: FileId)
    requires Distinct(ids)
    ensures multiset(ids)[id] == if id in ids then 1 else 0
  {
    if ids != [] {
      var front, last := ids[..|ids| - 1], ids[|ids| - 1];
      DistinctMultiset(front, id);
      assert ids == front + [last];
      assert last !in front;
    }
  }

  // ------------------------------------------------------ the server

  datatype Result = Success | FileTooLarge | UploadNotReady | UploadBlobMissing | FileNotFound

  class Server {
    var up: bool
    var files: map<FileId, FileRow>
    var queue: seq<FileId>
    var held: map<WorkerId, Job>
    var unfinished: int
    var completing: set<FileId>
    var dead: set<WorkerId>
    ghost var known: set<FileId>
    ghost var stranded: set<FileId>

    ghost function View(): State
      reads this
    {
      State(up, files, queue, held, unfinished, completing, dead, known, stranded)
    }

    constructor ()
      ensures View() == START
    {
      up, files, queue, held, unfinished, completing, dead, known, stranded := false, map[], [], map[], 0, {}, {}, {}, {};
    }

    method Enqueue(id: FileId)
      modifies this`queue, this`unfinished
      ensures queue == old(queue) + [id] && unfinished == old(unfinished) + 1
    {
      queue := queue + [id];
      unfinished := unfinished + 1;
    }

    /** `id` is the new random file id. */
    method CreateUploadUrl(tenant: string, id: FileId, size: nat, now: nat) returns (result: Result)
      requires up && id !in known
      modifies this
      ensures View() == Next(old(View()), CreateUpload(tenant, id, size, now))
      ensures result == if size > 5 * 1024 * 1024 * 1024 then FileTooLarge else Success
      ensures files == if result.Success? then old(files)[id := FileRow(tenant, size, Uploading, now, now)] else old(files)
      ensures queue == old(queue) && completing == old(completing)
    {
      if size > MAX_SIGNED_UPLOAD_BYTES {
        return FileTooLarge;
      }
      files := files[id := FileRow(tenant, size, Uploading, now, now)];
      known := known + {id};
      return Success;
    }

    /** The part up to the commit; `blob` is the size of the stored object. */
    method CompleteUploadOf(tenant: string, id: FileId, blob: Option<nat>, now: nat) returns (result: Result)
      requires up
      modifies this
      ensures View() == Next(old(View()), CompleteUpload(tenant, id, blob, now))
      ensures result == if !(Has(old(files), id, Uploading) && old(files)[id].tenant == tenant) then UploadNotReady
                        else if blob.None? then UploadBlobMissing else Success
      ensures result.Success? ==>
                && id in completing && queue == old(queue)
                && files == old(files)[id := FileRow(tenant, blob.value, Pending, old(files)[id].created, now)]
      ensures !result.Success? ==> files == old(files) && completing == old(completing)
    {
      if !Has(files, id, Uploading) || files[id].tenant != tenant {
        return UploadNotReady;
      }
      if blob.None? {
        return UploadBlobMissing;
      }
      files := files[id := files[id].(size := blob.value, status := Pending, updated := now)];
      completing := completing + {id};
      return Success;
    }

    /** The part after the commit; `refreshed` says whether the record could be read again. */
    method FinishUploadOf(id: FileId, refreshed: bool) returns (enqueued: bool)
      requires id in completing
      modifies this
      ensures View() == Next(old(View()), FinishUpload(id, refreshed))
      ensures enqueued == (refreshed && id in files) && files == old(files) && completing == old(completing) - {id}
      ensures queue == if enqueued then old(queue) + [id] else old(queue)
      ensures unfinished == if enqueued then old(unfinished) + 1 else old(unfinished)
    {
      completing := completing - {id};
      enqueued := refreshed && id in files;
      if enqueued {
        Enqueue(id);
      } else if Has(files, id, Pending) {
        stranded := stranded + {id};
      }
    }

    method DeleteFile(tenant: string, id: FileId) returns (result: Result)
      requires up
      modifies this
      ensures View() == Next(old(View()), Delete(tenant, id))
      ensures result == if id in old(files) && old(files)[id].tenant == tenant then Success else FileNotFound
      ensures files == (if result.Success? then old(files) - {id} else old(files)) && queue == old(queue)
    {
      if id !in files || files[id].tenant != tenant {
        return FileNotFound;
      }
      files := files - {id};
      return Success;
    }

    /** `_queue.get()` by an idle worker. */
    method WorkerGet(w: WorkerId) returns (id: FileId)
      requires up && w !in held && w !in dead && queue != []
      modifies this
      ensures View() == Next(old(View()), Get(w))
      ensures id == old(queue)[0] && old(queue) == [id] + queue && held == old(held)[w := Job(id, Got)]
      ensures files == old(files) && unfinished == old(unfinished)
    {
      id := queue[0];
      queue := queue[1..];
      held := held[w := Job(id, Got)];
    }

    /**
     * The status check; a file that is not PENDING is skipped, which also marks the task done. If the
     * row cannot be read, the exception ends the worker.
     */
    method WorkerAdmit(w: WorkerId, readable: bool) returns (admitted: bool)
      requires w in held && held[w].stage == Got
      modifies this
      ensures View() == Next(old(View()), if readable then Admit(w) else Die(w))
      ensures files == old(files) && queue == old(queue)
      ensures admitted == (readable && old(held)[w].file in files && files[old(held)[w].file].status == Pending)
      ensures held == if admitted then old(held)[w := Job(old(held)[w].file, Admitted)] else old(held) - {w}
      ensures unfinished == if admitted then old(unfinished) else old(unfinished) - 1
      ensures dead == if readable then old(dead) else old(dead) + {w}
    {
      admitted := readable && Has(files, held[w].file, Pending);
      if !readable {
        WorkerDies(w);
      } else if admitted {
        held := held[w := held[w].(stage := Admitted)];
      } else {
        WorkerTaskDone(w);
      }
    }

    /** An exception leaves the loop: the task is still marked done, and the worker takes no other. */
    method WorkerDies(w: WorkerId)
      requires w in held
      modifies this
      ensures View() == Next(old(View()), Die(w))
      ensures held == old(held) - {w} && unfinished == old(unfinished) - 1 && dead == old(dead) + {w}
      ensures files == old(files) && queue == old(queue)
    {
      var id := held[w].file;
      WorkerTaskDone(w);
      dead := dead + {w};
      if Has(files, id, Pending) {
        stranded := stranded + {id};
      }
    }

    method WorkerTaskDone(w: WorkerId)
      requires w in held
      modifies this`held, this`unfinished
      ensures held == old(held) - {w} && unfinished == old(unfinished) - 1
    {
      held := held - {w};
      unfinished := unfinished - 1;
    }

    /** Cancels the workers as the process ends; the queue is lost with it. */
    method StopWorkers()
      modifies this
      ensures View() == Next(old(View()), Shutdown)
      ensures !up && queue == [] && held == map[] && completing == {} && files == old(files)
    {
      up, queue, held, unfinished, completing, dead, stranded := false, [], map[], 0, {}, {}, {};
    }

    /** `rows` is the table in the order in which the queries return it. */
    method ReapStuckFiles(rows: seq<FileId>, now: nat, stuckBefore: nat, staleBefore: nat)
      returns (enqueued: seq<FileId>)
      requires !up && queue == [] && held == map[] && unfinished == 0 && IsListing(rows, files)
      modifies this
      ensures View() == Next(old(View()), Boot(rows, now, stuckBefore, staleBefore))
      ensures enqueued == queue
    {
      ResetStuckRows(rows, now, stuckBefore);
      enqueued := EnqueuePendingRows(rows);
      DropStaleRows(rows, staleBefore);
      up := true;
    }

    method ResetStuckRows(rows: seq<FileId>, now: nat, before: nat)
      requires IsListing(rows, files)
      modifies this`files
      ensures files == ResetStuck(old(files), now, before)
    {
      ghost var reset := ResetStuck(files, now, before);
      for i := 0 to |rows|
        invariant files.Keys == old(files).Keys
        invariant forall id :: id in files ==> files[id] == if id in rows[..i] then reset[id] else old(files)[id]
      {
        var id := rows[i];
        assert id !in rows[..i];
        if Stuck(files[id], before) {
          files := files[id := files[id].(status := Pending, updated := now)];
        }
      }
      assert rows[..|rows|] == rows;
    }

    method EnqueuePendingRows(rows: seq<FileId>) returns (enqueued: seq<FileId>)
      modifies this`queue, this`unfinished
      ensures enqueued == PendingOf(rows, files)
      ensures queue == old(queue) + enqueued && unfinished == old(unfinished) + |enqueued|
    {
      enqueued := [];
      for i := 0 to |rows|
        invariant enqueued == PendingOf(rows[..i], files)
        invariant queue == old(queue) + enqueued && unfinished == old(unfinished) + |enqueued|
      {
        assert rows[..i + 1][..i] == rows[..i];
        if Has(files, rows[i], Pending) {
          Enqueue(rows[i]);
          enqueued := enqueued + [rows[i]];
        }
      }
      assert rows[..|rows|] == rows;
    }

    method DropStaleRows(rows: seq<FileId>, before: nat)
      requires Distinct(rows) && forall id :: id in rows <==> id in files
      modifies this`files
      ensures files == DropStale(old(files), before)
    {
      for i := 0 to |rows|
        invariant forall id :: id in files <==> id in old(files) && !(id in rows[..i] && Stale(old(files)[id], before))
        invariant forall id :: id in files ==> files[id] == old(files)[id]
      {
        var id := rows[i];
        assert id !in rows[..i];
        if Stale(files[id], before) {
          files := files - {id};
        }
      }
      assert rows[..|rows|] == rows;
    }
  }
}
