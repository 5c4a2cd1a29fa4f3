/** Embedding in slices of 64: chunks in the order of their index, aliases in whatever order they are read. */
module Embedding {
  import opened Sequences
  import opened Rows

  const BATCH_SIZE: nat := 64
  const SHORT_LENGTH: nat := 256

  function Truncate(v: Vector): Vector {
    v[..Min(SHORT_LENGTH, |v|)]
  }

  // ------------------------------------------------------ slices, for any kind of row

  function Pick<R>(rows: seq<R>, ids: seq<nat>): (picked: seq<R>)
    requires forall k :: 0 <= k < |ids| ==> ids[k] < |rows|
    ensures |picked| == |ids| && forall k :: 0 <= k < |ids| ==> picked[k] == rows[ids[k]]
  {
    seq(|ids|, k requires 0 <= k < |ids| => rows[ids[k]])
  }

  /** Stores the first n vectors, each in the row whose id stands at the same place. */
  function PutFirst<R>(rows: seq<R>, ids: seq<nat>, vs: seq<Vector>, put: (R, Vector) -> R, n: nat): (out: seq<R>)
    requires n <= |ids| && n <= |vs| && forall k :: 0 <= k < |ids| ==> ids[k] < |rows|
    ensures |out| == |rows|
  {
    if n == 0 then rows
    else
      var out := PutFirst(rows, ids, vs, put, n - 1);
      out[ids[n - 1] := put(out[ids[n - 1]], vs[n - 1])]
  }

  /** `zip` stops at the shorter list, so a vector that is missing leaves its row as it was. */
  function PutAll<R>(rows: seq<R>, ids: seq<nat>, vs: seq<Vector>, put: (R, Vector) -> R): (out: seq<R>)
    requires forall k :: 0 <= k < |ids| ==> ids[k] < |rows|
    ensures |out| == |rows|
  {
    PutFirst(rows, ids, vs, put, Min(|ids|, |vs|))
  }

  function SliceEnd(order: seq<nat>, i: nat): nat {
    Min(i + BATCH_SIZE, |order|)
  }

  /** What is stored once the slices from i on are embedded; the texts are those of the rows as read. */
  function EmbedFrom<R>(
    read: seq<R>, out: seq<R>, order: seq<nat>, ask: seq<R> -> seq<Vector>, put: (R, Vector) -> R, i: nat): (result: seq<R>)
    requires |out| == |read| && IsOrder(order, |read|)
    ensures |result| == |read|
    decreases |order| - i
  {
    if i >= |order| then out
    else
      var ids := order[i..SliceEnd(order, i)];
      EmbedFrom(read, PutAll(out, ids, ask(Pick(read, ids)), put), order, ask, put, i + BATCH_SIZE)
  }

  /** The vector for row order[j]: the one at its place in the answer to its slice, if the answer is that long. */
  function AnswerFor<R>(ask: seq<R> -> seq<Vector>, read: seq<R>, order: seq<nat>, j: nat): Option<Vector>
    requires IsOrder(order, |read|) && j < |order|
  {
    var i := SliceStart(j);
    var answer := ask(Pick(read, order[i..SliceEnd(order, i)]));
    if j - i < |answer| then Some(answer[j - i]) else None
  }

  function SliceStart(j: nat): (i: nat)
    ensures i <= j < i + BATCH_SIZE && i % BATCH_SIZE == 0
  {
    j - j % BATCH_SIZE
  }

  lemma SameSlice(i: nat, k: nat)
    requires i % BATCH_SIZE == 0 && i <= k < i + BATCH_SIZE
    ensures SliceStart(k) == i
  {
  }

  function PutAnswer<R>(row: R, answer: Option<Vector>, put: (R, Vector) -> R): R {
    if answer.Some? then put(row, answer.value) else row
  }

  lemma {:induction false} PutFirstRows<R>(rows: seq<R>, ids: seq<nat>, vs: seq<Vector>, put: (R, Vector) -> R, n: nat)
    requires n <= |ids| && n <= |vs| && Distinct(ids) && forall k :: 0 <= k < |ids| ==> ids[k] < |rows|
    ensures var out := PutFirst(rows, ids, vs, put, n);
            && (forall k :: 0 <= k < n ==> out[ids[k]] == put(rows[ids[k]], vs[k]))
            && (forall r :: 0 <= r < |rows| && r !in ids[..n] ==> out[r] == rows[r])
  {
    if n > 0 {
      PutFirstRows(rows, ids, vs, put, n - 1);
      assert ids[..n] == ids[..n - 1] + [ids[n - 1]];
      assert forall k :: 0 <= k < n - 1 ==> ids[k] != ids[n - 1];
    }
  }

  /** `out` holds the answers for the first i rows read, and nothing new in the other rows. */
  ghost predicate EmbeddedTo<R>(
    read: seq<R>, out: seq<R>, order: seq<nat>, ask: seq<R> -> seq<Vector>, put: (R, Vector) -> R, i: nat)
    requires |out| == |read| && IsOrder(order, |read|)
  {
    forall k :: 0 <= k < |order| ==>
      out[order[k]] == if k < i then PutAnswer(read[order[k]], AnswerFor(ask, read, order, k), put) else read[order[k]]
  }

  lemma SliceStep<R>(
    read: seq<R>, out: seq<R>, order: seq<nat>, ask: seq<R> -> seq<Vector>, put: (R, Vector) -> R, i: nat)
    requires |out| == |read| && IsOrder(order, |read|) && i < |order| && i % BATCH_SIZE == 0
    requires EmbeddedTo(read, out, order, ask, put, i)
    ensures var ids := order[i..SliceEnd(order, i)];
            EmbeddedTo(read, PutAll(out, ids, ask(Pick(read, ids)), put), order, ask, put, SliceEnd(order, i))
  {
    hide PutFirst, SliceStart, AnswerFor, PutAnswer;
    var end := SliceEnd(order, i);
    var ids := order[i..end];
    var vs := ask(Pick(read, ids));
    PutFirstRows(out, ids, vs, put, Min(|ids|, |vs|));
    var next := PutAll(out, ids, vs, put);
    forall k | 0 <= k < |order|
      ensures next[order[k]]
           == if k < end then PutAnswer(read[order[k]], AnswerFor(ask, read, order, k), put) else read[order[k]]
    {
      if i <= k < end {
        assert ids[k - i] == order[k];
        AnswerInSlice(read, order, ask, i, k);
        PutAnswerIs(read[order[k]], vs, k - i, put);
        if k - i >= |vs| {
          NotEarlier(ids, k - i);
        }
      } else {
        assert order[k] !in ids;
      }
    }
  }

  lemma NotEarlier(ids: seq<nat>, k: nat)
    requires Distinct(ids) && k < |ids|
    ensures forall n :: 0 <= n <= k ==> ids[k] !in ids[..n]
  {
  }

  lemma AnswerInSlice<R>(read: seq<R>, order: seq<nat>, ask: seq<R> -> seq<Vector>, i: nat, k: nat)
    requires IsOrder(order, |read|) && i % BATCH_SIZE == 0 && i <= k < SliceEnd(order, i)
    ensures var vs := ask(Pick(read, order[i..SliceEnd(order, i)]));
            AnswerFor(ask, read, order, k) == if k - i < |vs| then Some(vs[k - i]) else None
  {
    SameSlice(i, k);
  }

  lemma PutAnswerIs<R>(row: R, vs: seq<Vector>, k: nat, put: (R, Vector) -> R)
    ensures PutAnswer(row, if k < |vs| then Some(vs[k]) else None, put) == if k < |vs| then put(row, vs[k]) else row
  {
  }

  lemma {:induction false} EmbedFromRows<R>(
    read: seq<R>, out: seq<R>, order: seq<nat>, ask: seq<R> -> seq<Vector>, put: (R, Vector) -> R, i: nat)
    requires |out| == |read| && IsOrder(order, |read|) && i % BATCH_SIZE == 0
    requires EmbeddedTo(read, out, order, ask, put, Min(i, |order|))
    ensures EmbeddedTo(read, EmbedFrom(read, out, order, ask, put, i), order, ask, put, |order|)
    decreases |order| - i
  {
    hide EmbeddedTo, PutAll;
    if i < |order| {
      var ids := order[i..SliceEnd(order, i)];
      SliceStep(read, out, order, ask, put, i);
      EmbedFromRows(read, PutAll(out, ids, ask(Pick(read, ids)), put), order, ask, put, i + BATCH_SIZE);
    }
  }

  /**
   * Whatever the embedder answers: each row gets the vector at its place in the answer to its slice,
   * or stays as it was.
   */
  lemma EmbedsAnswers<R>(read: seq<R>, order: seq<nat>, ask: seq<R> -> seq<Vector>, put: (R, Vector) -> R, j: nat)
    requires IsOrder(order, |read|) && j < |order|
    ensures EmbedFrom(read, read, order, ask, put, 0)[order[j]]
         == PutAnswer(read[order[j]], AnswerFor(ask, read, order, j), put)
  {
    hide EmbedFrom, AnswerFor, PutAnswer;
    EmbedFromRows(read, read, order, ask, put, 0);
  }

  /** How many vectors the slices from i on store. */
  function StoredFrom<R>(read: seq<R>, order: seq<nat>, ask: seq<R> -> seq<Vector>, i: nat): nat
    requires IsOrder(order, |read|)
    decreases |order| - i
  {
    if i >= |order| then 0
    else
      var ids := order[i..SliceEnd(order, i)];
      Min(|ids|, |ask(Pick(read, ids))|) + StoredFrom(read, order, ask, i + BATCH_SIZE)
  }

  /** The places from i on whose rows are reached by the answer to their slice. */
  ghost function ReachedFrom<R>(read: seq<R>, order: seq<nat>, ask: seq<R> -> seq<Vector>, i: nat): set<nat>
    requires IsOrder(order, |read|)
  {
    set j | i <= j < |order| && AnswerFor(ask, read, order, j).Some?
  }

  lemma ReachedSplit<R>(read: seq<R>, order: seq<nat>, ask: seq<R> -> seq<Vector>, i: nat)
    requires IsOrder(order, |read|) && i < |order| && i % BATCH_SIZE == 0
    ensures var ids := order[i..SliceEnd(order, i)];
            ReachedFrom(read, order, ask, i)
              == Interval(i, i + Min(|ids|, |ask(Pick(read, ids))|)) + ReachedFrom(read, order, ask, i + BATCH_SIZE)
  {
    hide AnswerFor;
    var end := SliceEnd(order, i);
    assert forall k :: 0 <= k < end - i ==> order[i..end][k] == order[i + k];
    var n := |ask(Pick(read, order[i..end]))|;
    forall j | i <= j < end
      ensures AnswerFor(ask, read, order, j).Some? <==> j - i < n
    {
      AnswerInSlice(read, order, ask, i, j);
    }
  }

  lemma ReachedCount<R>(read: seq<R>, order: seq<nat>, ask: seq<R> -> seq<Vector>, i: nat)
    requires IsOrder(order, |read|) && i < |order| && i % BATCH_SIZE == 0
    ensures var ids := order[i..SliceEnd(order, i)];
            |ReachedFrom(read, order, ask, i)|
              == Min(|ids|, |ask(Pick(read, ids))|) + |ReachedFrom(read, order, ask, i + BATCH_SIZE)|
  {
    hide AnswerFor;
    ReachedSplit(read, order, ask, i);
    var end := SliceEnd(order, i);
    var n := Min(end - i, |ask(Pick(read, order[i..end]))|);
    var later := ReachedFrom(read, order, ask, i + BATCH_SIZE);
    assert Interval(i, i + n) !! later;
  }

  /** As many vectors are stored as there are such places. */
  lemma {:induction false} StoredIsReached<R>(read: seq<R>, order: seq<nat>, ask: seq<R> -> seq<Vector>, i: nat)
    requires IsOrder(order, |read|) && i % BATCH_SIZE == 0
    ensures StoredFrom(read, order, ask, i) == |ReachedFrom(read, order, ask, i)|
    decreases |order| - i
  {
    if i < |order| {
      hide ReachedFrom, AnswerFor;
      StoredIsReached(read, order, ask, i + BATCH_SIZE);
      ReachedCount(read, order, ask, i);
    } else {
      assert ReachedFrom(read, order, ask, i) == {};
    }
  }

  function Interval(a: nat, b: nat): (s: set<nat>)
    requires a <= b
    ensures |s| == b - a && forall j :: j in s <==> a <= j < b
    decreases b - a
  {
    if a == b then {} else Interval(a, b - 1) + {b - 1}
  }

  // ------------------------------------------------------ chunks and aliases

  /** What is embedded for a chunk. */
  function ChunkText(c: ChunkRow): string {
    if c.prefix != "" then c.prefix + "\n" + c.content else c.content
  }

  function AliasText(a: AliasRow): string {
    a.content
  }

  function PutChunk(c: ChunkRow, v: Vector): ChunkRow {
    c.(short := Some(Truncate(v)), full := Some(v))
  }

  function PutAlias(a: AliasRow, v: Vector): AliasRow {
    a.(short := Some(Truncate(v)))
  }

  /** The content type of the first chunk of a slice decides the model for the whole slice. */
  function AskChunks(ext: External): seq<ChunkRow> -> seq<Vector> {
    (slice: seq<ChunkRow>) => if slice == [] then [] else ext.embed(Map(ChunkText, slice), "document", slice[0].contentType)
  }

  function AskAliases(ext: External): seq<AliasRow> -> seq<Vector> {
    (slice: seq<AliasRow>) => ext.embed(Map(AliasText, slice), "query", "text")
  }

  function EmbeddedChunks(ext: External, chunks: seq<ChunkRow>): (out: seq<ChunkRow>)
    ensures |out| == |chunks|
  {
    EmbedFrom(chunks, chunks, Range(|chunks|), AskChunks(ext), PutChunk, 0)
  }

  function EmbeddedAliases(ext: External, aliases: seq<AliasRow>, order: seq<nat>): (out: seq<AliasRow>)
    requires IsOrder(order, |aliases|)
    ensures |out| == |aliases|
  {
    EmbedFrom(aliases, aliases, order, AskAliases(ext), PutAlias, 0)
  }

  /** The vector of one text asked for alone. */
  function VectorOf(ext: External, text: string, inputType: string, contentType: string): Vector {
    var answer := ext.embed([text], inputType, contentType);
    if answer == [] then [] else answer[0]
  }

  ghost predicate Answered(ext: External, texts: seq<string>, inputType: string, contentType: string) {
    var answer := ext.embed(texts, inputType, contentType);
    && |answer| == |texts|
    && forall k :: 0 <= k < |texts| ==> answer[k] == VectorOf(ext, texts[k], inputType, contentType)
  }

  /** The embedder answers every request for questions with one vector per text that no other text of it changes. */
  ghost predicate QuestionsIndependent(ext: External) {
    forall texts :: Answered(ext, texts, "query", "text")
  }

  /** It does so for every request. */
  ghost predicate OneVectorPerText(ext: External) {
    forall texts, inputType, contentType :: Answered(ext, texts, inputType, contentType)
  }

  /**
   * The answer for the slice of 64 chunks that starts at i: each chunk is sent as its prefix, a line
   * break and its content, or as its content alone when it has no prefix.
   */
  function ChunkRequest(ext: External, chunks: seq<ChunkRow>, i: nat): seq<Vector>
    requires i < |chunks|
  {
    var texts := seq(Min(64, |chunks| - i), j requires 0 <= j < Min(64, |chunks| - i) =>
      var c := chunks[i + j]; if c.prefix == "" then c.content else c.prefix + "\n" + c.content);
    ext.embed(texts, "document", chunks[i].contentType)
  }

  lemma ChunkRequestIs(ext: External, chunks: seq<ChunkRow>, i: nat)
    requires i < |chunks|
    ensures ChunkRequest(ext, chunks, i)
         == ext.embed(Map(ChunkText, chunks[i..Min(i + BATCH_SIZE, |chunks|)]), "document", chunks[i].contentType)
  {
    var slice := chunks[i..Min(i + BATCH_SIZE, |chunks|)];
    assert Map(ChunkText, slice) == seq(Min(64, |chunks| - i), j requires 0 <= j < Min(64, |chunks| - i) =>
      var c := chunks[i + j]; if c.prefix == "" then c.content else c.prefix + "\n" + c.content);
  }

  /** The vector that chunk k gets: the one at its place in the answer to its slice. */
  function ChunkAnswer(ext: External, chunks: seq<ChunkRow>, k: nat): Option<Vector>
    requires k < |chunks|
  {
    var answer := ChunkRequest(ext, chunks, k - k % 64);
    if k % 64 < |answer| then Some(answer[k % 64]) else None
  }

  function AliasRequest(ext: External, aliases: seq<AliasRow>, order: seq<nat>, i: nat): seq<Vector>
    requires IsOrder(order, |aliases|) && i < |aliases|
  {
    var texts := seq(Min(64, |order| - i), j requires 0 <= j < Min(64, |order| - i) => aliases[order[i + j]].content);
    ext.embed(texts, "query", "text")
  }

  lemma AliasRequestIs(ext: External, aliases: seq<AliasRow>, order: seq<nat>, i: nat)
    requires IsOrder(order, |aliases|) && i < |aliases|
    ensures AliasRequest(ext, aliases, order, i)
         == ext.embed(Map(AliasText, Pick(aliases, order[i..Min(i + BATCH_SIZE, |order|)])), "query", "text")
  {
    assert Map(AliasText, Pick(aliases, order[i..Min(i + BATCH_SIZE, |order|)]))
        == seq(Min(64, |order| - i), j requires 0 <= j < Min(64, |order| - i) => aliases[order[i + j]].content);
  }

  /** The vector that the alias read at place j gets. */
  function AliasAnswer(ext: External, aliases: seq<AliasRow>, order: seq<nat>, j: nat): Option<Vector>
    requires IsOrder(order, |aliases|) && j < |aliases|
  {
    var answer := AliasRequest(ext, aliases, order, j - j % 64);
    if j % 64 < |answer| then Some(answer[j % 64]) else None
  }

  /** For any embedder: chunk k gets the vector at its place in the answer to its slice of 64, or stays as it was. */
  lemma ChunksGetAnswers(ext: External, chunks: seq<ChunkRow>)
    ensures forall k :: 0 <= k < |chunks| ==>
              EmbeddedChunks(ext, chunks)[k] == PutAnswer(chunks[k], ChunkAnswer(ext, chunks, k), PutChunk)
  {
    hide EmbedFrom, PutAnswer, AnswerFor, ChunkAnswer;
    var order := Range(|chunks|);
    forall k | 0 <= k < |chunks|
      ensures EmbeddedChunks(ext, chunks)[k] == PutAnswer(chunks[k], ChunkAnswer(ext, chunks, k), PutChunk)
    {
      EmbedsAnswers(chunks, order, AskChunks(ext), PutChunk, k);
      ChunkAnswerIs(ext, chunks, k);
      assert order[k] == k;
    }
  }

  lemma ChunkAnswerIs(ext: External, chunks: seq<ChunkRow>, k: nat)
    requires k < |chunks|
    ensures IsOrder(Range(|chunks|), |chunks|)
    ensures AnswerFor(AskChunks(ext), chunks, Range(|chunks|), k) == ChunkAnswer(ext, chunks, k)
  {
    hide AskChunks, ChunkText;
    RangeIsOrder(|chunks|);
    var i := SliceStart(k);
    ChunkRequestIs(ext, chunks, i);
    ChunksAsked(ext, chunks, i, Min(i + BATCH_SIZE, |chunks|), ChunkRequest(ext, chunks, i));
  }

  lemma AliasesGetAnswers(ext: External, aliases: seq<AliasRow>, order: seq<nat>)
    requires IsOrder(order, |aliases|)
    ensures forall j :: 0 <= j < |aliases| ==>
              EmbeddedAliases(ext, aliases, order)[order[j]]
                == PutAnswer(aliases[order[j]], AliasAnswer(ext, aliases, order, j), PutAlias)
  {
    hide EmbedFrom, PutAnswer, AnswerFor, AliasAnswer;
    forall j | 0 <= j < |aliases|
      ensures EmbeddedAliases(ext, aliases, order)[order[j]]
           == PutAnswer(aliases[order[j]], AliasAnswer(ext, aliases, order, j), PutAlias)
    {
      EmbedsAnswers(aliases, order, AskAliases(ext), PutAlias, j);
      AliasAnswerIs(ext, aliases, order, j);
    }
  }

  lemma AliasAnswerIs(ext: External, aliases: seq<AliasRow>, order: seq<nat>, j: nat)
    requires IsOrder(order, |aliases|) && j < |aliases|
    ensures AnswerFor(AskAliases(ext), aliases, order, j) == AliasAnswer(ext, aliases, order, j)
  {
    hide AliasRequest;
    AliasRequestIs(ext, aliases, order, SliceStart(j));
  }

  // ------------------------------------------------------ how many rows get a vector

  ghost function ReachedChunks(ext: External, chunks: seq<ChunkRow>): set<nat> {
    set k | 0 <= k < |chunks| && ChunkAnswer(ext, chunks, k).Some?
  }

  ghost function ReachedAliases(ext: External, aliases: seq<AliasRow>, order: seq<nat>): set<nat>
    requires IsOrder(order, |aliases|)
  {
    set j | 0 <= j < |aliases| && AliasAnswer(ext, aliases, order, j).Some?
  }

  lemma ChunksCounted(ext: External, chunks: seq<ChunkRow>)
    ensures IsOrder(Range(|chunks|), |chunks|)
    ensures StoredFrom(chunks, Range(|chunks|), AskChunks(ext), 0) == |ReachedChunks(ext, chunks)|
  {
    hide AnswerFor, ChunkAnswer;
    var order := Range(|chunks|);
    RangeIsOrder(|chunks|);
    StoredIsReached(chunks, order, AskChunks(ext), 0);
    forall k | 0 <= k < |chunks|
      ensures AnswerFor(AskChunks(ext), chunks, order, k) == ChunkAnswer(ext, chunks, k)
    {
      ChunkAnswerIs(ext, chunks, k);
    }
    assert ReachedFrom(chunks, order, AskChunks(ext), 0) == ReachedChunks(ext, chunks);
  }

  lemma AliasesCounted(ext: External, aliases: seq<AliasRow>, order: seq<nat>)
    requires IsOrder(order, |aliases|)
    ensures StoredFrom(aliases, order, AskAliases(ext), 0) == |ReachedAliases(ext, aliases, order)|
  {
    hide AnswerFor, AliasAnswer, AskAliases;
    StoredIsReached(aliases, order, AskAliases(ext), 0);
    forall j | 0 <= j < |aliases|
      ensures AnswerFor(AskAliases(ext), aliases, order, j) == AliasAnswer(ext, aliases, order, j)
    {
      AliasAnswerIs(ext, aliases, order, j);
    }
    assert ReachedFrom(aliases, order, AskAliases(ext), 0) == ReachedAliases(ext, aliases, order);
  }

  lemma AllReached(reached: set<nat>, n: nat)
    requires forall k :: k in reached ==> k < n
    ensures |reached| <= n
    ensures |reached| == n <==> forall k :: 0 <= k < n ==> k in reached
  {
    var all := Interval(0, n);
    Subset(reached, all);
  }

  lemma {:induction false} Subset(a: set<nat>, b: set<nat>)
    requires a <= b
    ensures |a| <= |b| && (|a| == |b| <==> a == b)
  {
    assert b == a + (b - a) && a !! (b - a);
  }

  /** The counts are full exactly if no slice is answered short. */
  lemma ChunkCountFull(ext: External, chunks: seq<ChunkRow>)
    ensures |ReachedChunks(ext, chunks)| == |chunks| <==> ChunksAnswered(ext, chunks)
  {
    hide ChunkAnswer, ChunksAnswered;
    ChunksReached(ext, chunks);
    AllReached(ReachedChunks(ext, chunks), |chunks|);
    assert forall k: nat :: k < |chunks| ==> (k in ReachedChunks(ext, chunks) <==> ChunkAnswer(ext, chunks, k).Some?);
  }

  lemma AliasCountFull(ext: External, aliases: seq<AliasRow>, order: seq<nat>)
    requires IsOrder(order, |aliases|)
    ensures |ReachedAliases(ext, aliases, order)| == |aliases| <==> AliasesAnswered(ext, aliases, order)
  {
    hide AliasAnswer, AliasesAnswered, IsOrder;
    AliasesReached(ext, aliases, order);
    AllReached(ReachedAliases(ext, aliases, order), |aliases|);
    assert forall j: nat :: j < |aliases| ==>
      (j in ReachedAliases(ext, aliases, order) <==> AliasAnswer(ext, aliases, order, j).Some?);
  }

  // ------------------------------------------------------ when every row gets a vector

  /** Each answer is at least as long as its slice. */
  ghost predicate ChunksAnswered(ext: External, chunks: seq<ChunkRow>) {
    forall i :: 0 <= i < |chunks| && i % BATCH_SIZE == 0 ==>
      |ChunkRequest(ext, chunks, i)| >= Min(i + BATCH_SIZE, |chunks|) - i
  }

  ghost predicate AliasesAnswered(ext: External, aliases: seq<AliasRow>, order: seq<nat>)
    requires IsOrder(order, |aliases|)
  {
    forall i :: 0 <= i < |aliases| && i % BATCH_SIZE == 0 ==>
      |AliasRequest(ext, aliases, order, i)| >= Min(i + BATCH_SIZE, |aliases|) - i
  }

  /**
   * Whatever vectors the chunks already have: all of them have one afterwards if and only if each had
   * one before or is reached by the answer to its slice.
   */
  lemma ChunkVectorsExactly(ext: External, chunks: seq<ChunkRow>)
    ensures (forall k :: 0 <= k < |chunks| ==> EmbeddedChunks(ext, chunks)[k].full.Some?)
        <==> (forall k :: 0 <= k < |chunks| ==> chunks[k].full.Some? || ChunkAnswer(ext, chunks, k).Some?)
  {
    hide EmbeddedChunks, ChunkAnswer;
    ChunksGetAnswers(ext, chunks);
    var out := EmbeddedChunks(ext, chunks);
    assert forall k :: 0 <= k < |chunks| ==>
      (out[k].full.Some? <==> chunks[k].full.Some? || ChunkAnswer(ext, chunks, k).Some?);
  }

  /** The same for aliases, in whatever order they are read. */
  lemma AliasVectorsExactly(ext: External, aliases: seq<AliasRow>, order: seq<nat>)
    requires IsOrder(order, |aliases|)
    ensures (forall k :: 0 <= k < |aliases| ==> EmbeddedAliases(ext, aliases, order)[k].short.Some?)
        <==> (forall j :: 0 <= j < |aliases| ==>
                aliases[order[j]].short.Some? || AliasAnswer(ext, aliases, order, j).Some?)
  {
    hide EmbeddedAliases, AliasAnswer;
    AliasesGetAnswers(ext, aliases, order);
    var out := EmbeddedAliases(ext, aliases, order);
    assert forall j :: 0 <= j < |aliases| ==>
      (out[order[j]].short.Some? <==> aliases[order[j]].short.Some? || AliasAnswer(ext, aliases, order, j).Some?);
    if forall j :: 0 <= j < |aliases| ==> out[order[j]].short.Some? {
      forall k | 0 <= k < |aliases| ensures out[k].short.Some? {
        OrderCovers(order, |aliases|, k);
      }
    }
  }

  /** Every chunk is reached exactly if no slice is answered short. */
  lemma ChunksReached(ext: External, chunks: seq<ChunkRow>)
    ensures (forall k :: 0 <= k < |chunks| ==> ChunkAnswer(ext, chunks, k).Some?) <==> ChunksAnswered(ext, chunks)
  {
    hide ChunkRequest;
    if forall k :: 0 <= k < |chunks| ==> ChunkAnswer(ext, chunks, k).Some? {
      forall i | 0 <= i < |chunks| && i % BATCH_SIZE == 0
        ensures |ChunkRequest(ext, chunks, i)| >= Min(i + BATCH_SIZE, |chunks|) - i
      {
        var last := Min(i + BATCH_SIZE, |chunks|) - 1;
        SameSlice(i, last);
        assert ChunkAnswer(ext, chunks, last).Some?;
      }
    }
    if ChunksAnswered(ext, chunks) {
      forall k | 0 <= k < |chunks| ensures ChunkAnswer(ext, chunks, k).Some? {
        assert |ChunkRequest(ext, chunks, SliceStart(k))| > k - SliceStart(k);
      }
    }
  }

  lemma AliasesReached(ext: External, aliases: seq<AliasRow>, order: seq<nat>)
    requires IsOrder(order, |aliases|)
    ensures (forall j :: 0 <= j < |aliases| ==> AliasAnswer(ext, aliases, order, j).Some?)
        <==> AliasesAnswered(ext, aliases, order)
  {
    hide AliasRequest, IsOrder;
    if forall j :: 0 <= j < |aliases| ==> AliasAnswer(ext, aliases, order, j).Some? {
      forall i | 0 <= i < |aliases| && i % BATCH_SIZE == 0
        ensures |AliasRequest(ext, aliases, order, i)| >= Min(i + BATCH_SIZE, |aliases|) - i
      {
        var last := Min(i + BATCH_SIZE, |aliases|) - 1;
        SameSlice(i, last);
        assert AliasAnswer(ext, aliases, order, last).Some?;
      }
    }
    if AliasesAnswered(ext, aliases, order) {
      forall j | 0 <= j < |aliases| ensures AliasAnswer(ext, aliases, order, j).Some? {
        assert |AliasRequest(ext, aliases, order, SliceStart(j))| > j - SliceStart(j);
      }
    }
  }

  /** So chunks that have no vector yet all get one if and only if no slice is answered short. */
  lemma FirstChunkVectors(ext: External, chunks: seq<ChunkRow>)
    requires forall k :: 0 <= k < |chunks| ==> chunks[k].full.None?
    ensures (forall k :: 0 <= k < |chunks| ==> EmbeddedChunks(ext, chunks)[k].full.Some?) <==> ChunksAnswered(ext, chunks)
  {
    hide EmbeddedChunks, ChunkAnswer, ChunksAnswered;
    ChunkVectorsExactly(ext, chunks);
    ChunksReached(ext, chunks);
  }

  lemma FirstAliasVectors(ext: External, aliases: seq<AliasRow>, order: seq<nat>)
    requires IsOrder(order, |aliases|) && forall k :: 0 <= k < |aliases| ==> aliases[k].short.None?
    ensures (forall k :: 0 <= k < |aliases| ==> EmbeddedAliases(ext, aliases, order)[k].short.Some?)
        <==> AliasesAnswered(ext, aliases, order)
  {
    hide EmbeddedAliases, AliasAnswer, AliasesAnswered;
    AliasVectorsExactly(ext, aliases, order);
    AliasesReached(ext, aliases, order);
  }

  // ------------------------------------------------------ embedding again

  predicate SameRequest(c: ChunkRow, d: ChunkRow) {
    ChunkText(c) == ChunkText(d) && c.contentType == d.contentType
  }

  lemma SameAnswer(ext: External, a: seq<ChunkRow>, b: seq<ChunkRow>, k: nat)
    requires k < |a| == |b| && forall j :: 0 <= j < |a| ==> SameRequest(a[j], b[j])
    ensures ChunkAnswer(ext, a, k) == ChunkAnswer(ext, b, k)
  {
    hide ChunkText, ChunkRequest;
    var i := SliceStart(k);
    var end := Min(i + BATCH_SIZE, |a|);
    ChunkRequestIs(ext, a, i);
    ChunkRequestIs(ext, b, i);
    assert SameRequest(a[i], b[i]);
    forall j | 0 <= j < end - i ensures Map(ChunkText, a[i..end])[j] == Map(ChunkText, b[i..end])[j] {
      assert SameRequest(a[i + j], b[i + j]);
    }
    assert Map(ChunkText, a[i..end]) == Map(ChunkText, b[i..end]);
  }

  lemma StoredKeepsRequests(ext: External, chunks: seq<ChunkRow>)
    ensures forall k :: 0 <= k < |chunks| ==> SameRequest(EmbeddedChunks(ext, chunks)[k], chunks[k])
  {
    hide EmbeddedChunks, ChunkAnswer;
    ChunksGetAnswers(ext, chunks);
  }

  /** Whatever the embedder answers, embedding the chunks again stores the same vectors in the same rows. */
  lemma ChunksTwice(ext: External, chunks: seq<ChunkRow>)
    ensures EmbeddedChunks(ext, EmbeddedChunks(ext, chunks)) == EmbeddedChunks(ext, chunks)
  {
    hide EmbeddedChunks, ChunkAnswer, SameRequest;
    var once := EmbeddedChunks(ext, chunks);
    ChunksGetAnswers(ext, chunks);
    ChunksGetAnswers(ext, once);
    StoredKeepsRequests(ext, chunks);
    forall k | 0 <= k < |chunks| ensures EmbeddedChunks(ext, once)[k] == once[k] {
      SameAnswer(ext, once, chunks, k);
    }
  }

  lemma SameQuestions(ext: External, a: seq<AliasRow>, b: seq<AliasRow>, order: seq<nat>, j: nat)
    requires j < |a| == |b| && IsOrder(order, |a|) && forall k :: 0 <= k < |a| ==> a[k].content == b[k].content
    ensures AliasAnswer(ext, a, order, j) == AliasAnswer(ext, b, order, j)
  {
    hide AliasRequest;
    var i := SliceStart(j);
    var ids := order[i..Min(i + BATCH_SIZE, |order|)];
    AliasRequestIs(ext, a, order, i);
    AliasRequestIs(ext, b, order, i);
    assert Map(AliasText, Pick(a, ids)) == Map(AliasText, Pick(b, ids));
  }

  /** And so for aliases, as long as they are read in the same order. */
  lemma AliasesTwice(ext: External, aliases: seq<AliasRow>, order: seq<nat>)
    requires IsOrder(order, |aliases|)
    ensures EmbeddedAliases(ext, EmbeddedAliases(ext, aliases, order), order) == EmbeddedAliases(ext, aliases, order)
  {
    hide EmbeddedAliases, AliasAnswer;
    var once := EmbeddedAliases(ext, aliases, order);
    AliasesGetAnswers(ext, aliases, order);
    StoredKeepsQuestions(ext, aliases, order);
    AliasesGetAnswers(ext, once, order);
    forall k | 0 <= k < |aliases| ensures EmbeddedAliases(ext, once, order)[k] == once[k] {
      OrderCovers(order, |aliases|, k);
      var j :| 0 <= j < |order| && order[j] == k;
      SameQuestions(ext, once, aliases, order, j);
    }
  }

  lemma StoredKeepsQuestions(ext: External, aliases: seq<AliasRow>, order: seq<nat>)
    requires IsOrder(order, |aliases|)
    ensures forall k :: 0 <= k < |aliases| ==> EmbeddedAliases(ext, aliases, order)[k].content == aliases[k].content
  {
    hide EmbeddedAliases, AliasAnswer;
    AliasesGetAnswers(ext, aliases, order);
    forall k | 0 <= k < |aliases| ensures EmbeddedAliases(ext, aliases, order)[k].content == aliases[k].content {
      OrderCovers(order, |aliases|, k);
      var j :| 0 <= j < |order| && order[j] == k;
      var answer := AliasAnswer(ext, aliases, order, j);
      assert EmbeddedAliases(ext, aliases, order)[order[j]] == PutAnswer(aliases[order[j]], answer, PutAlias);
    }
  }

  // ------------------------------------------------------ embedders that treat each text on its own

  /** The vector a chunk should have: that of its text, with the content type of the first chunk of its slice. */
  function ChunkVector(ext: External, chunks: seq<ChunkRow>, k: nat): Vector
    requires k < |chunks|
  {
    VectorOf(ext, ChunkText(chunks[k]), "document", chunks[SliceStart(k)].contentType)
  }

  function AliasVector(ext: External, aliases: seq<AliasRow>, k: nat): Vector
    requires k < |aliases|
  {
    VectorOf(ext, aliases[k].content, "query", "text")
  }

  /**
   * With an embedder that treats each text on its own, every chunk gets the vector of its current
   * prefix, a line break and its content, or of its content if it has no prefix, asked for with the
   * content type of the first chunk of its slice of 64; and the first 256 places of that vector.
   */
  lemma ChunksEmbedded(ext: External, chunks: seq<ChunkRow>)
    requires OneVectorPerText(ext)
    ensures forall k :: 0 <= k < |chunks| ==>
              var c, first := chunks[k], chunks[k - k % 64];
              var text := if c.prefix == "" then c.content else c.prefix + "\n" + c.content;
              var answer := ext.embed([text], "document", first.contentType);
              && |answer| == 1
              && EmbeddedChunks(ext, chunks)[k]
                   == c.(full := Some(answer[0]), short := Some(answer[0][..Min(256, |answer[0]|)]))
  {
    hide EmbeddedChunks, ChunkAnswer, OneVectorPerText, ChunkText, Answered;
    ChunksGetAnswers(ext, chunks);
    forall k | 0 <= k < |chunks|
      ensures var c, first := chunks[k], chunks[k - k % 64];
              var text := if c.prefix == "" then c.content else c.prefix + "\n" + c.content;
              var answer := ext.embed([text], "document", first.contentType);
              && |answer| == 1
              && EmbeddedChunks(ext, chunks)[k]
                   == c.(full := Some(answer[0]), short := Some(answer[0][..Min(256, |answer[0]|)]))
    {
      OwnChunkAnswer(ext, chunks, k);
      ChunkTextIs(chunks[k]);
      AskedAlone(ext, ChunkText(chunks[k]), "document", chunks[SliceStart(k)].contentType);
    }
  }

  lemma ChunkTextIs(c: ChunkRow)
    ensures ChunkText(c) == if c.prefix == "" then c.content else c.prefix + "\n" + c.content
  {
  }

  lemma AskedAlone(ext: External, text: string, inputType: string, contentType: string)
    requires OneVectorPerText(ext) || (QuestionsIndependent(ext) && inputType == "query" && contentType == "text")
    ensures |ext.embed([text], inputType, contentType)| == 1
  {
    assert Answered(ext, [text], inputType, contentType);
  }

  lemma OwnChunkAnswer(ext: External, chunks: seq<ChunkRow>, k: nat)
    requires OneVectorPerText(ext) && k < |chunks|
    ensures ChunkAnswer(ext, chunks, k) == Some(ChunkVector(ext, chunks, k))
  {
    hide ChunkText, VectorOf, Answered, ChunkRequest;
    var i := SliceStart(k);
    ChunkRequestIs(ext, chunks, i);
    var texts := Map(ChunkText, chunks[i..Min(i + BATCH_SIZE, |chunks|)]);
    assert Answered(ext, texts, "document", chunks[i].contentType);
    AnsweredAt(ext, texts, "document", chunks[i].contentType, k - i);
    assert texts[k - i] == ChunkText(chunks[k]);
  }

  lemma AnsweredAt(ext: External, texts: seq<string>, inputType: string, contentType: string, k: nat)
    requires Answered(ext, texts, inputType, contentType) && k < |texts|
    ensures var answer := ext.embed(texts, inputType, contentType);
            k < |answer| && answer[k] == VectorOf(ext, texts[k], inputType, contentType)
  {
    hide VectorOf;
  }

  /**
   * If it does so for questions, every alias gets the vector of its question, in whatever order the
   * aliases were read.
   */
  lemma AliasesEmbedded(ext: External, aliases: seq<AliasRow>, order: seq<nat>)
    requires QuestionsIndependent(ext) && IsOrder(order, |aliases|)
    ensures forall k :: 0 <= k < |aliases| ==>
              EmbeddedAliases(ext, aliases, order)[k] == PutAlias(aliases[k], AliasVector(ext, aliases, k))
    ensures forall k :: 0 <= k < |aliases| ==>
              var answer := ext.embed([aliases[k].content], "query", "text");
              && |answer| == 1
              && EmbeddedAliases(ext, aliases, order)[k].short == Some(answer[0][..Min(256, |answer[0]|)])
  {
    AliasesEmbeddedAs(ext, aliases, order);
    hide EmbeddedAliases;
    forall k | 0 <= k < |aliases| ensures |ext.embed([aliases[k].content], "query", "text")| == 1 {
      AskedAlone(ext, aliases[k].content, "query", "text");
    }
  }

  lemma AliasesEmbeddedAs(ext: External, aliases: seq<AliasRow>, order: seq<nat>)
    requires QuestionsIndependent(ext) && IsOrder(order, |aliases|)
    ensures forall k :: 0 <= k < |aliases| ==>
              EmbeddedAliases(ext, aliases, order)[k] == PutAlias(aliases[k], AliasVector(ext, aliases, k))
  {
    hide EmbeddedAliases, PutAlias, VectorOf, AliasAnswer, QuestionsIndependent;
    AliasesGetAnswers(ext, aliases, order);
    forall k | 0 <= k < |aliases|
      ensures EmbeddedAliases(ext, aliases, order)[k] == PutAlias(aliases[k], AliasVector(ext, aliases, k))
    {
      OrderCovers(order, |aliases|, k);
      var j :| 0 <= j < |order| && order[j] == k;
      OwnAnswer(ext, aliases, order, j);
    }
  }

  lemma OwnAnswer(ext: External, aliases: seq<AliasRow>, order: seq<nat>, j: nat)
    requires QuestionsIndependent(ext) && IsOrder(order, |aliases|) && j < |aliases|
    ensures AliasAnswer(ext, aliases, order, j) == Some(AliasVector(ext, aliases, order[j]))
  {
    hide VectorOf, Answered, AliasRequest;
    var i := SliceStart(j);
    AliasRequestIs(ext, aliases, order, i);
    var ids := order[i..Min(i + BATCH_SIZE, |order|)];
    var texts := Map(AliasText, Pick(aliases, ids));
    assert Answered(ext, texts, "query", "text");
    AnsweredAt(ext, texts, "query", "text", j - i);
    assert ids[j - i] == order[j] && texts[j - i] == aliases[order[j]].content;
  }

  // ------------------------------------------------------ the loops

  function WithChunks(db: Db, i: nat, chunks: seq<ChunkRow>): (r: Db)
    requires i < |db.batches|
    ensures |r.batches| == |db.batches|
  {
    SetBatch(db, i, db.batches[i].(chunks := chunks))
  }

  function WithAliases(db: Db, i: nat, aliases: seq<AliasRow>): (r: Db)
    requires i < |db.batches|
    ensures |r.batches| == |db.batches|
  {
    SetBatch(db, i, db.batches[i].(aliases := aliases))
  }

  /** What embedding the chunks of batch i commits: nothing when it has none. */
  function ChunkCommits(ext: External, db: Db, i: nat): seq<Db>
    requires i < |db.batches|
  {
    var chunks := db.batches[i].chunks;
    if chunks == [] then [] else [WithChunks(db, i, EmbeddedChunks(ext, chunks))]
  }

  function AliasCommits(w: World, db: Db, i: nat): seq<Db>
    requires Readable(w) && i < |db.batches|
  {
    var aliases := db.batches[i].aliases;
    if aliases == [] then [] else [WithAliases(db, i, EmbeddedAliases(w.ext, aliases, w.aliasOrder(i, |aliases|)))]
  }

  lemma WithChunksTwice(db: Db, i: nat, a: seq<ChunkRow>, b: seq<ChunkRow>)
    requires i < |db.batches|
    ensures WithChunks(WithChunks(db, i, a), i, b) == WithChunks(db, i, b)
    ensures WithChunks(db, i, a).batches[i].chunks == a
    ensures WithChunks(db, i, db.batches[i].chunks) == db
  {
  }

  lemma WithAliasesTwice(db: Db, i: nat, a: seq<AliasRow>, b: seq<AliasRow>)
    requires i < |db.batches|
    ensures WithAliases(WithAliases(db, i, a), i, b) == WithAliases(db, i, b)
    ensures WithAliases(db, i, a).batches[i].aliases == a
    ensures WithAliases(db, i, db.batches[i].aliases) == db
  {
  }

  method EmbedFileChunks(session: Session, ext: External, b: nat) returns (count: nat)
    requires session.working == session.committed && b < |session.committed.batches|
    modifies session
    ensures session.log == old(session.log) + ChunkCommits(ext, old(session.committed), b)
    ensures session.working == session.committed
            == Last(old(session.committed), ChunkCommits(ext, old(session.committed), b))
    ensures count == |ReachedChunks(ext, old(session.committed).batches[b].chunks)|
  {
    hide *;
    ghost var db := session.working;
    var chunks := session.working.batches[b].chunks;
    NothingToEmbed(ext, db, b);
    ChunksCounted(ext, chunks);
    if chunks == [] {
      NoneStored(chunks, Range(|chunks|), AskChunks(ext), 0);
      return 0;
    }
    count := 0;
    var i := 0;
    ghost var out, order, ask := chunks, Range(|chunks|), AskChunks(ext);
    RangeIsOrder(|chunks|);
    WithChunksTwice(db, b, chunks, chunks);
    while i < |chunks|
      invariant |out| == |chunks| && session.log == old(session.log) && session.working == WithChunks(db, b, out)
      invariant EmbedFrom(chunks, out, order, ask, PutChunk, i) == EmbedFrom(chunks, chunks, order, ask, PutChunk, 0)
      invariant count + StoredFrom(chunks, order, ask, i) == StoredFrom(chunks, order, ask, 0)
    {
      var end := if i + BATCH_SIZE < |chunks| then i + BATCH_SIZE else |chunks|;
      EmbedStep(chunks, out, order, ask, PutChunk, i, end);
      var slice := chunks[i..end];
      var texts := Map(ChunkText, slice);
      var vectors := ext.embed(texts, "document", slice[0].contentType);
      ChunksAsked(ext, chunks, i, end, vectors);
      WithChunksTwice(db, b, out, out);
      ghost var ids := order[i..end];
      var stored := StoreChunkVectors(session, b, i, end - i, vectors);
      WithChunksTwice(db, b, out, PutAll(out, ids, vectors, PutChunk));
      out := PutAll(out, ids, vectors, PutChunk);
      count := count + stored;
      i := i + BATCH_SIZE;
    }
    EmbedEnd(chunks, out, order, ask, PutChunk, i);
    NoneStored(chunks, order, ask, i);
    session.Commit();
    SomeToEmbed(ext, db, b, out);
  }

  /** `zip(batch, vectors)`: one UPDATE for each pair. */
  method StoreChunkVectors(session: Session, b: nat, from: nat, size: nat, vectors: seq<Vector>) returns (count: nat)
    requires b < |session.working.batches| && from + size <= |session.working.batches[b].chunks|
    modifies session`working
    ensures var chunks := old(session.working).batches[b].chunks;
            session.working == WithChunks(old(session.working), b,
              PutAll(chunks, Range(|chunks|)[from..from + size], vectors, PutChunk))
    ensures count == if size < |vectors| then size else |vectors|
  {
    ghost var db := session.working;
    ghost var out := db.batches[b].chunks;
    ghost var rows, ids := out, Range(|out|)[from..from + size];
    hide PutFirst, WithChunks, PutChunk;
    WithChunksTwice(db, b, out, out);
    NothingPut(rows, ids, vectors, PutChunk);
    count := 0;
    while count < size && count < |vectors|
      invariant count <= size && count <= |vectors|
      invariant out == PutFirst(rows, ids, vectors, PutChunk, count) && session.working == WithChunks(db, b, out)
    {
      PutOneMore(rows, ids, vectors, PutChunk, count);
      WithChunksTwice(db, b, out, out);
      var chunks := session.working.batches[b].chunks;
      var stored := chunks[from + count := PutChunk(chunks[from + count], vectors[count])];
      WithChunksTwice(db, b, out, stored);
      session.working := WithChunks(session.working, b, stored);
      out := stored;
      count := count + 1;
    }
  }

  method EmbedFileAliases(session: Session, w: World, b: nat) returns (count: nat)
    requires Readable(w) && session.working == session.committed && b < |session.committed.batches|
    modifies session
    ensures session.log == old(session.log) + AliasCommits(w, old(session.committed), b)
    ensures session.working == session.committed
            == Last(old(session.committed), AliasCommits(w, old(session.committed), b))
    ensures var rows := old(session.committed).batches[b].aliases;
            count == |ReachedAliases(w.ext, rows, w.aliasOrder(b, |rows|))|
  {
    hide *;
    ghost var db := session.working;
    var rows := session.working.batches[b].aliases;
    AliasOrderIsOrder(w, b, |rows|);
    NoAliasToEmbed(w, db, b);
    AliasesCounted(w.ext, rows, w.aliasOrder(b, |rows|));
    if rows == [] {
      NoneStored(rows, w.aliasOrder(b, 0), AskAliases(w.ext), 0);
      return 0;
    }
    count := 0;
    var order := w.aliasOrder(b, |rows|);
    IdsInRange(order, |rows|);
    var aliases := Pick(rows, order);
    var i := 0;
    ghost var out, ask := rows, AskAliases(w.ext);
    WithAliasesTwice(db, b, rows, rows);
    while i < |aliases|
      invariant |out| == |rows| && session.log == old(session.log) && session.working == WithAliases(db, b, out)
      invariant EmbedFrom(rows, out, order, ask, PutAlias, i) == EmbedFrom(rows, rows, order, ask, PutAlias, 0)
      invariant count + StoredFrom(rows, order, ask, i) == StoredFrom(rows, order, ask, 0)
    {
      var end := if i + BATCH_SIZE < |aliases| then i + BATCH_SIZE else |aliases|;
      var texts := Map(AliasText, aliases[i..end]);
      var vectors := w.ext.embed(texts, "query", "text");
      EmbedStep(rows, out, order, ask, PutAlias, i, end);
      AliasesAsked(w.ext, rows, order, i, end, vectors);
      WithAliasesTwice(db, b, out, out);
      var ids := order[i..end];
      var stored := StoreAliasVectors(session, b, ids, vectors);
      WithAliasesTwice(db, b, out, PutAll(out, ids, vectors, PutAlias));
      out := PutAll(out, ids, vectors, PutAlias);
      count := count + stored;
      i := i + BATCH_SIZE;
    }
    EmbedEnd(rows, out, order, ask, PutAlias, i);
    NoneStored(rows, order, ask, i);
    session.Commit();
    SomeAliasToEmbed(w, db, b, out);
  }

  method StoreAliasVectors(session: Session, b: nat, ids: seq<nat>, vectors: seq<Vector>) returns (count: nat)
    requires b < |session.working.batches| && forall k :: 0 <= k < |ids| ==>
             ids[k] < |session.working.batches[b].aliases|
    modifies session`working
    ensures var aliases := old(session.working).batches[b].aliases;
            session.working == WithAliases(old(session.working), b, PutAll(aliases, ids, vectors, PutAlias))
    ensures count == if |ids| < |vectors| then |ids| else |vectors|
  {
    ghost var db := session.working;
    ghost var out := db.batches[b].aliases;
    ghost var rows := out;
    hide PutFirst, WithAliases, PutAlias;
    WithAliasesTwice(db, b, out, out);
    NothingPut(rows, ids, vectors, PutAlias);
    count := 0;
    while count < |ids| && count < |vectors|
      invariant count <= |ids| && count <= |vectors|
      invariant out == PutFirst(rows, ids, vectors, PutAlias, count) && session.working == WithAliases(db, b, out)
    {
      PutOneMore(rows, ids, vectors, PutAlias, count);
      WithAliasesTwice(db, b, out, out);
      var aliases := session.working.batches[b].aliases;
      var stored := aliases[ids[count] := PutAlias(aliases[ids[count]], vectors[count])];
      WithAliasesTwice(db, b, out, stored);
      session.working := WithAliases(session.working, b, stored);
      out := stored;
      count := count + 1;
    }
  }

  lemma NothingToEmbed(ext: External, db: Db, b: nat)
    requires b < |db.batches|
    ensures db.batches[b].chunks == [] ==> ChunkCommits(ext, db, b) == [] && Last(db, ChunkCommits(ext, db, b)) == db
  {
  }

  lemma SomeToEmbed(ext: External, db: Db, b: nat, out: seq<ChunkRow>)
    requires b < |db.batches| && db.batches[b].chunks != []
    requires var chunks := db.batches[b].chunks;
             out == EmbedFrom(chunks, chunks, Range(|chunks|), AskChunks(ext), PutChunk, 0)
    ensures ChunkCommits(ext, db, b) == [WithChunks(db, b, out)]
    ensures Last(db, ChunkCommits(ext, db, b)) == WithChunks(db, b, out)
  {
    hide EmbedFrom, WithChunks;
  }

  lemma NoAliasToEmbed(w: World, db: Db, b: nat)
    requires Readable(w) && b < |db.batches|
    ensures db.batches[b].aliases == [] ==> AliasCommits(w, db, b) == [] && Last(db, AliasCommits(w, db, b)) == db
  {
  }

  lemma SomeAliasToEmbed(w: World, db: Db, b: nat, out: seq<AliasRow>)
    requires Readable(w) && b < |db.batches| && db.batches[b].aliases != []
    requires var rows := db.batches[b].aliases;
             out == EmbedFrom(rows, rows, w.aliasOrder(b, |rows|), AskAliases(w.ext), PutAlias, 0)
    ensures AliasCommits(w, db, b) == [WithAliases(db, b, out)]
    ensures Last(db, AliasCommits(w, db, b)) == WithAliases(db, b, out)
  {
    hide EmbedFrom, WithAliases;
  }

  lemma AliasOrderIsOrder(w: World, b: nat, n: nat)
    requires Readable(w)
    ensures IsOrder(w.aliasOrder(b, n), n)
  {
  }

  lemma IdsInRange(order: seq<nat>, n: nat)
    requires IsOrder(order, n)
    ensures |order| == n && forall k :: 0 <= k < |order| ==> order[k] < n
  {
  }

  lemma ChunksAsked(ext: External, chunks: seq<ChunkRow>, i: nat, end: nat, vectors: seq<Vector>)
    requires i < end <= |chunks|
    requires vectors == ext.embed(Map(ChunkText, chunks[i..end]), "document", chunks[i].contentType)
    ensures AskChunks(ext)(Pick(chunks, Range(|chunks|)[i..end])) == vectors
  {
    hide ChunkText;
    assert Pick(chunks, Range(|chunks|)[i..end]) == chunks[i..end];
  }

  lemma AliasesAsked(ext: External, rows: seq<AliasRow>, order: seq<nat>, i: nat, end: nat, vectors: seq<Vector>)
    requires IsOrder(order, |rows|) && i < end <= |rows|
    requires vectors == ext.embed(Map(AliasText, Pick(rows, order)[i..end]), "query", "text")
    ensures AskAliases(ext)(Pick(rows, order[i..end])) == vectors
  {
    assert Pick(rows, order)[i..end] == Pick(rows, order[i..end]);
  }

  lemma EmbedStep<R>(
    read: seq<R>, out: seq<R>, order: seq<nat>, ask: seq<R> -> seq<Vector>, put: (R, Vector) -> R, i: nat, end: nat)
    requires |out| == |read| && IsOrder(order, |read|) && i < |order|
    requires end == if i + BATCH_SIZE < |order| then i + BATCH_SIZE else |order|
    ensures i < end <= |order| && forall k :: 0 <= k < end - i ==> order[i..end][k] < |read|
    ensures var ids := order[i..end];
            EmbedFrom(read, out, order, ask, put, i)
              == EmbedFrom(read, PutAll(out, ids, ask(Pick(read, ids)), put), order, ask, put, i + BATCH_SIZE)
    ensures var ids := order[i..end];
            var n := if |ids| < |ask(Pick(read, ids))| then |ids| else |ask(Pick(read, ids))|;
            |ids| == end - i && StoredFrom(read, order, ask, i) == n + StoredFrom(read, order, ask, i + BATCH_SIZE)
  {
    hide PutAll;
  }

  lemma EmbedEnd<R>(
    read: seq<R>, out: seq<R>, order: seq<nat>, ask: seq<R> -> seq<Vector>, put: (R, Vector) -> R, i: nat)
    requires |out| == |read| && IsOrder(order, |read|) && i >= |order|
    ensures EmbedFrom(read, out, order, ask, put, i) == out
  {
  }

  lemma NothingPut<R>(rows: seq<R>, ids: seq<nat>, vs: seq<Vector>, put: (R, Vector) -> R)
    requires forall k :: 0 <= k < |ids| ==> ids[k] < |rows|
    ensures PutFirst(rows, ids, vs, put, 0) == rows
  {
  }

  lemma PutOneMore<R>(rows: seq<R>, ids: seq<nat>, vs: seq<Vector>, put: (R, Vector) -> R, n: nat)
    requires n < |ids| && n < |vs| && forall k :: 0 <= k < |ids| ==> ids[k] < |rows|
    ensures var out := PutFirst(rows, ids, vs, put, n);
            PutFirst(rows, ids, vs, put, n + 1) == out[ids[n] := put(out[ids[n]], vs[n])]
  {
  }

  lemma NoneStored<R>(read: seq<R>, order: seq<nat>, ask: seq<R> -> seq<Vector>, i: nat)
    requires IsOrder(order, |read|) && i >= |order|
    ensures StoredFrom(read, order, ask, i) == 0
  {
  }
}
