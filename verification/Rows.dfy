/** The rows that the ingestion of one file reads and writes, the services it calls, and its database session. */
module Rows {
  import opened Sequences
  import opened Statuses
  import opened Hierarchy

  type Vector = seq<real>

  datatype ParentRow = ParentRow(content: string, tokens: nat)

  function ContentOf(p: ParentRow): string {
    p.content
  }

  /** `parent` is the position of its parent among the batch's parents. */
  datatype ChunkRow = ChunkRow(
    parent: nat, index: nat, content: string, prefix: string, tokens: nat, contentType: string,
    short: Option<Vector>, full: Option<Vector>)

  /** `chunk` is the index of the chunk the question belongs to. */
  datatype AliasRow = AliasRow(chunk: nat, content: string, tokens: nat, short: Option<Vector>)

  /** A batch with its rows; chunks and parents are kept in the order in which they were inserted. */
  datatype Batch = Batch(
    index: nat, chunking: BatchStatus, enrichment: BatchStatus, embedding: BatchStatus, count: nat,
    parents: seq<ParentRow>, chunks: seq<ChunkRow>, aliases: seq<AliasRow>)

  datatype SectionSummary = SectionSummary(heading: string, summary: string)
  datatype Summary = Summary(document: string, sections: seq<SectionSummary>)
  datatype GroupSummary = GroupSummary(summary: string, sections: seq<SectionSummary>)

  datatype Phase = NoPhase | InChunking | InSummarization | InEnrichment | InEmbedding

  /** The file row, its batches in the order of their index, and its summary. */
  datatype Db = Db(
    status: FileStatus, phase: Phase, total: nat, completed: nat, retries: nat,
    batches: seq<Batch>, summary: Option<Summary>)

  /** The chunker's answer for the file, and the services as functions of their inputs. */
  datatype External = External(
    groups: seq<Group>,
    documentSummary: string -> Summary,
    groupSummary: (string, nat, nat) -> GroupSummary,
    reduceSummary: seq<GroupSummary> -> Summary,
    context: (string, string, string, string) -> string,
    isTable: string -> bool,
    questions: string -> seq<string>,
    countTokens: string -> nat,
    embed: (seq<string>, string, string) -> seq<Vector>)

  /**
   * What one run sees: the services, and the orders in which n tied rows are read back. Parents are
   * ordered by a timestamp that is equal for all rows of one transaction; aliases are not ordered.
   */
  datatype World = World(
    ext: External,
    fileOrder: nat -> seq<nat>,
    parentOrder: (nat, nat) -> seq<nat>,
    aliasOrder: (nat, nat) -> seq<nat>)

  /** A query returns each of its rows once. */
  ghost predicate Readable(w: World) {
    && (forall n :: IsOrder(w.fileOrder(n), n))
    && (forall i, n :: IsOrder(w.parentOrder(i, n), n))
    && (forall i, n :: IsOrder(w.aliasOrder(i, n), n))
  }

  /** Parents come back in the order in which they were inserted. */
  ghost predicate InsertionOrder(w: World) {
    && (forall n :: w.fileOrder(n) == Range(n))
    && (forall i, n :: w.parentOrder(i, n) == Range(n))
  }

  /** Rows as a query returns them. */
  function Reordered<T>(rows: seq<T>, order: seq<nat>): (read: seq<T>)
    requires IsOrder(order, |rows|)
    ensures |read| == |rows| && forall i :: 0 <= i < |rows| ==> read[i] == rows[order[i]]
  {
    seq(|order|, i requires 0 <= i < |order| => rows[order[i]])
  }

  function SetBatch(db: Db, i: nat, b: Batch): Db
    requires i < |db.batches|
  {
    db.(batches := db.batches[i := b])
  }

  /** The last of some states reached one after the other from `from`. */
  function Last<T>(from: T, steps: seq<T>): T {
    if steps == [] then from else steps[|steps| - 1]
  }

  lemma LastAppend<T>(from: T, a: seq<T>, b: seq<T>)
    ensures Last(from, a + b) == Last(Last(from, a), b)
  {
  }

  /** `log` is the history of committed states; a run cut short leaves one of them behind. */
  class Session {
    var committed: Db
    var working: Db
    ghost var log: seq<Db>

    constructor (db: Db)
      ensures committed == working == db && log == []
    {
      committed, working, log := db, db, [];
    }

    method Commit()
      modifies this
      ensures committed == working == old(working)
      ensures log == old(log) + [working]
    {
      committed := working;
      log := log + [working];
    }

    method Rollback()
      modifies this`working
      ensures working == committed
    {
      working := committed;
    }
  }
}
