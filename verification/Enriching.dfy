/**
 * Enrichment of one batch: its chunks are read back group by group, get a context prefix and table
 * questions, and are matched with their rows by position.
 */
module Enriching {
  import opened Sequences
  import opened Statuses
  import opened Rows

  const NEIGHBOR_RANGE: nat := 3
  const NEIGHBOR_LENGTH: nat := 500

  // ------------------------------------------------------ what is read back

  /** The chunks of a parent among the first n, in the order of their index. */
  function ChildIds(chunks: seq<ChunkRow>, parent: nat, n: nat): (ids: seq<nat>)
    requires n <= |chunks|
    ensures forall i :: 0 <= i < |ids| ==> ids[i] < n && chunks[ids[i]].parent == parent
  {
    if n == 0 then []
    else if chunks[n - 1].parent == parent then ChildIds(chunks, parent, n - 1) + [n - 1]
    else ChildIds(chunks, parent, n - 1)
  }

  /** A chunk read back, and the place of its group among the groups read. */
  datatype Slot = Slot(group: nat, chunk: nat)

  function SlotsOf(group: nat, ids: seq<nat>): (slots: seq<Slot>)
    ensures |slots| == |ids| && forall i :: 0 <= i < |ids| ==> slots[i] == Slot(group, ids[i])
  {
    seq(|ids|, i requires 0 <= i < |ids| => Slot(group, ids[i]))
  }

  /** The chunks of the first n groups, one group after the other. */
  function Slots(chunks: seq<ChunkRow>, order: seq<nat>, n: nat): seq<Slot>
    requires n <= |order|
  {
    if n == 0 then []
    else Slots(chunks, order, n - 1) + SlotsOf(n - 1, ChildIds(chunks, order[n - 1], |chunks|))
  }

  function AllSlots(chunks: seq<ChunkRow>, order: seq<nat>): seq<Slot> {
    Slots(chunks, order, |order|)
  }

  function ChunkOf(s: Slot): nat {
    s.chunk
  }

  // ------------------------------------------------------ prefixes and questions

  function Heading(s: SectionSummary): string {
    s.heading + ": " + s.summary
  }

  function SectionContext(sections: seq<SectionSummary>): string {
    Join(" | ", Map(Heading, sections))
  }

  function Shortened(content: string): string {
    content[..Min(NEIGHBOR_LENGTH, |content|)]
  }

  /** The shortened contents from `start` to `end` without that of group g. */
  function NeighborParts(contents: seq<string>, g: nat, start: nat, end: nat): seq<string>
    requires end <= |contents|
  {
    if start >= end then []
    else NeighborParts(contents, g, start, end - 1) + if end - 1 == g then [] else [Shortened(contents[end - 1])]
  }

  lemma ShortenedIs(content: string)
    ensures Shortened(content) == if |content| < 500 then content else content[..500]
  {
  }

  /** They are the contents of all places from `start` to `end` but g, in order, each cut to its first 500 characters. */
  lemma {:induction false} NeighborPartsAre(contents: seq<string>, g: nat, start: nat, end: nat)
    requires start <= g && start <= end <= |contents|
    ensures var parts := NeighborParts(contents, g, start, end);
            && |parts| == end - start - (if g < end then 1 else 0)
            && forall j :: 0 <= j < |parts| ==>
                 var content := contents[if start + j < g then start + j else start + j + 1];
                 parts[j] == if |content| < 500 then content else content[..500]
  {
    if start < end {
      var front := NeighborParts(contents, g, start, end - 1);
      NeighborPartsAre(contents, g, start, end - 1);
      ShortenedIs(contents[end - 1]);
      hide Shortened;
      assert NeighborParts(contents, g, start, end)
          == front + if end - 1 == g then [] else [Shortened(contents[end - 1])];
    }
  }

  function Neighbors(contents: seq<string>, g: nat): string {
    var start := if g < NEIGHBOR_RANGE then 0 else g - NEIGHBOR_RANGE;
    Join("\n---\n", NeighborParts(contents, g, start, Min(|contents|, g + NEIGHBOR_RANGE + 1)))
  }

  /** An empty answer keeps the old prefix. */
  function NewPrefix(ext: External, sum: Summary, contents: seq<string>, g: nat, content: string,
    before: string): string {
    var context := ext.context(sum.document, SectionContext(sum.sections), Neighbors(contents, g), content);
    if context != "" then context else before
  }

  /** The contents of the up to three groups on either side of group g, in order, each cut to 500 characters. */
  predicate AreNeighbors(contents: seq<string>, g: nat, parts: seq<string>)
    requires g < |contents|
  {
    var start := if g < 3 then 0 else g - 3;
    var end := if g + 4 < |contents| then g + 4 else |contents|;
    && |parts| == end - start - 1
    && forall j :: 0 <= j < |parts| ==>
         var content := contents[if start + j < g then start + j else start + j + 1];
         parts[j] == if |content| < 500 then content else content[..500]
  }

  /**
   * What the prefix of a chunk becomes: the answer to the document summary, the section summaries, the
   * neighbours and the chunk's own text; an empty answer keeps the prefix that was there before.
   */
  ghost predicate IsNewPrefix(
    ext: External, sum: Summary, contents: seq<string>, g: nat, content: string, before: string, prefix: string)
    requires g < |contents|
  {
    exists parts :: AreNeighbors(contents, g, parts) && prefix == PrefixGiven(ext, sum, parts, content, before)
  }

  function PrefixGiven(ext: External, sum: Summary, parts: seq<string>, content: string, before: string): string {
    var sections := seq(|sum.sections|, i requires 0 <= i < |sum.sections| =>
      sum.sections[i].heading + ": " + sum.sections[i].summary);
    var answer := ext.context(sum.document, Join(" | ", sections), Join("\n---\n", parts), content);
    if answer == "" then before else answer
  }

  lemma NewPrefixIs(ext: External, sum: Summary, contents: seq<string>, g: nat, content: string, before: string)
    requires g < |contents|
    ensures IsNewPrefix(ext, sum, contents, g, content, before, NewPrefix(ext, sum, contents, g, content, before))
  {
    hide Join;
    var start := if g < 3 then 0 else g - 3;
    var end := if g + 4 < |contents| then g + 4 else |contents|;
    var parts := NeighborParts(contents, g, start, end);
    NeighborPartsAre(contents, g, start, end);
    assert AreNeighbors(contents, g, parts);
    assert Map(Heading, sum.sections) == seq(|sum.sections|, i requires 0 <= i < |sum.sections| =>
      sum.sections[i].heading + ": " + sum.sections[i].summary);
  }

  /** The neighbours leave no choice, so neither does the prefix. */
  lemma NewPrefixIsUnique(
    ext: External, sum: Summary, contents: seq<string>, g: nat, content: string, before: string, p: string, q: string)
    requires g < |contents|
    requires IsNewPrefix(ext, sum, contents, g, content, before, p)
    requires IsNewPrefix(ext, sum, contents, g, content, before, q)
    ensures p == q
  {
    hide PrefixGiven, AreNeighbors;
    var a :| AreNeighbors(contents, g, a) && p == PrefixGiven(ext, sum, a, content, before);
    var b :| AreNeighbors(contents, g, b) && q == PrefixGiven(ext, sum, b, content, before);
    SameNeighbors(contents, g, a, b);
  }

  lemma SameNeighbors(contents: seq<string>, g: nat, a: seq<string>, b: seq<string>)
    requires g < |contents| && AreNeighbors(contents, g, a) && AreNeighbors(contents, g, b)
    ensures a == b
  {
  }

  function AliasRows(ext: External, chunk: nat, questions: seq<string>): (rows: seq<AliasRow>)
    ensures |rows| == |questions|
    ensures forall q :: 0 <= q < |questions| ==>
            rows[q] == AliasRow(chunk, questions[q], ext.countTokens(questions[q]), None)
  {
    seq(|questions|, q requires 0 <= q < |questions| => AliasRow(chunk, questions[q], ext.countTokens(questions[q]), None))
  }

  function Questions(ext: External, content: string): seq<string> {
    if ext.isTable(content) then ext.questions(content) else []
  }

  /** The aliases of the first n places of a list of contents; each belongs to the row at its place. */
  function AliasesTo(ext: External, contents: seq<string>, n: nat): seq<AliasRow>
    requires n <= |contents|
  {
    if n == 0 then []
    else AliasesTo(ext, contents, n - 1) + AliasRows(ext, n - 1, Questions(ext, contents[n - 1]))
  }

  function AllAliases(ext: External, contents: seq<string>): seq<AliasRow> {
    AliasesTo(ext, contents, |contents|)
  }

  lemma {:induction false} AliasesAsk(ext: External, contents: seq<string>, n: nat)
    requires n <= |contents|
    ensures forall a :: a in AliasesTo(ext, contents, n) ==>
              && a.chunk < n && a.tokens == ext.countTokens(a.content) && a.short == None
              && a.content in Questions(ext, contents[a.chunk])
    ensures forall k, q :: 0 <= k < n && q in Questions(ext, contents[k]) ==>
              AliasRow(k, q, ext.countTokens(q), None) in AliasesTo(ext, contents, n)
  {
    hide Questions;
    if n > 0 {
      AliasesAsk(ext, contents, n - 1);
      var questions := Questions(ext, contents[n - 1]);
      var front, last := AliasesTo(ext, contents, n - 1), AliasRows(ext, n - 1, questions);
      forall k: nat, q | k < n && q in Questions(ext, contents[k])
        ensures AliasRow(k, q, ext.countTokens(q), None) in front + last
      {
        if k == n - 1 {
          var i :| 0 <= i < |questions| && questions[i] == q;
          assert last[i] == AliasRow(k, q, ext.countTokens(q), None);
        }
      }
    }
  }

  /** Every alias asks a question about the table chunk it belongs to, and no question is left out. */
  lemma AliasesBelong(ext: External, contents: seq<string>, n: nat)
    requires n <= |contents|
    ensures forall a :: a in AliasesTo(ext, contents, n) ==>
              && a.chunk < n && a.tokens == ext.countTokens(a.content) && a.short == None
              && ext.isTable(contents[a.chunk]) && a.content in ext.questions(contents[a.chunk])
    ensures forall k, q :: 0 <= k < n && ext.isTable(contents[k]) && q in ext.questions(contents[k]) ==>
              AliasRow(k, q, ext.countTokens(q), None) in AliasesTo(ext, contents, n)
  {
    hide AliasesTo;
    AliasesAsk(ext, contents, n);
    assert forall k :: 0 <= k < n ==>
      Questions(ext, contents[k]) == if ext.isTable(contents[k]) then ext.questions(contents[k]) else [];
  }

  /** The aliases of one chunk: the questions about it in order, if it is a table. */
  function AliasesOf(ext: External, contents: seq<string>, k: nat): seq<AliasRow>
    requires k < |contents|
  {
    var questions := if ext.isTable(contents[k]) then ext.questions(contents[k]) else [];
    seq(|questions|, q requires 0 <= q < |questions| => AliasRow(k, questions[q], ext.countTokens(questions[q]), None))
  }

  function AliasesOfAll(ext: External, contents: seq<string>): seq<AliasRow> {
    Concat(seq(|contents|, k requires 0 <= k < |contents| => AliasesOf(ext, contents, k)))
  }

  /** All aliases are those of the chunks one after the other, each question once for each time it was asked. */
  lemma {:induction false} AliasesAre(ext: External, contents: seq<string>, n: nat)
    requires n <= |contents|
    ensures AliasesTo(ext, contents, n)
         == Concat(seq(n, k requires 0 <= k < n => AliasesOf(ext, contents, k)))
  {
    hide AliasesOf, AliasRows, Questions;
    var all := seq(n, k requires 0 <= k < n => AliasesOf(ext, contents, k));
    if n > 0 {
      AliasesAre(ext, contents, n - 1);
      AliasRowsAre(ext, contents, n - 1);
      var front := seq(n - 1, k requires 0 <= k < n - 1 => AliasesOf(ext, contents, k));
      assert all == front + [AliasesOf(ext, contents, n - 1)];
      ConcatAppend(front, [AliasesOf(ext, contents, n - 1)]);
      ConcatOne(AliasesOf(ext, contents, n - 1));
    } else {
      assert all == [];
    }
  }

  lemma AliasRowsAre(ext: External, contents: seq<string>, k: nat)
    requires k < |contents|
    ensures AliasRows(ext, k, Questions(ext, contents[k])) == AliasesOf(ext, contents, k)
  {
  }

  // ------------------------------------------------------ the batch written back

  function ReadContents(b: Batch, order: seq<nat>): seq<string>
    requires IsOrder(order, |b.parents|)
  {
    Map(ContentOf, Reordered(b.parents, order))
  }

  function SlotContents(chunks: seq<ChunkRow>, slots: seq<Slot>): (contents: seq<string>)
    requires forall j :: 0 <= j < |slots| ==> slots[j].chunk < |chunks|
    ensures |contents| == |slots| && forall j :: 0 <= j < |slots| ==> contents[j] == chunks[slots[j].chunk].content
  {
    seq(|slots|, j requires 0 <= j < |slots| => chunks[slots[j].chunk].content)
  }

  function SlotPrefixes(ext: External, sum: Summary, contents: seq<string>, chunks: seq<ChunkRow>,
    slots: seq<Slot>): (prefixes: seq<string>)
    requires forall j :: 0 <= j < |slots| ==> slots[j].chunk < |chunks|
    ensures |prefixes| == |slots|
    ensures forall j :: 0 <= j < |slots| ==>
              var c := chunks[slots[j].chunk]; prefixes[j] == NewPrefix(ext, sum, contents, slots[j].group, c.content, c.prefix)
  {
    seq(|slots|, j requires 0 <= j < |slots| =>
      var c := chunks[slots[j].chunk]; NewPrefix(ext, sum, contents, slots[j].group, c.content, c.prefix))
  }

  /** `zip(db_chunks, enriched_children)` */
  function WithPrefixes(chunks: seq<ChunkRow>, prefixes: seq<string>): (rows: seq<ChunkRow>)
    ensures |rows| == |chunks|
    ensures forall j :: 0 <= j < |chunks| ==>
            rows[j] == if j < |prefixes| then chunks[j].(prefix := prefixes[j]) else chunks[j]
  {
    seq(|chunks|, j requires 0 <= j < |chunks| => if j < |prefixes| then chunks[j].(prefix := prefixes[j]) else chunks[j])
  }

  /** Every chunk belongs to one of the batch's parents. */
  predicate HasParents(b: Batch) {
    forall k :: 0 <= k < |b.chunks| ==> b.chunks[k].parent < |b.parents|
  }

  /** The batch as phase 3 commits it when its parents are read back in some order. */
  function EnrichedBatch(ext: External, sum: Summary, b: Batch, order: seq<nat>): Batch
    requires IsOrder(order, |b.parents|)
  {
    SlotsInRange(b.chunks, order);
    var slots := AllSlots(b.chunks, order);
    b.(enrichment := BatchCompleted,
       chunks := WithPrefixes(b.chunks, SlotPrefixes(ext, sum, ReadContents(b, order), b.chunks, slots)),
       aliases := b.aliases + AllAliases(ext, SlotContents(b.chunks, slots)))
  }

  /**
   * The enriched batch over the service itself, in whatever order the parents were read: row j takes the
   * prefix of the j-th chunk read, which is the answer for that chunk, or the prefix it had before.
   */
  lemma EnrichedPrefixes(ext: External, sum: Summary, b: Batch, order: seq<nat>)
    requires IsOrder(order, |b.parents|) && HasParents(b)
    ensures
      var slots := AllSlots(b.chunks, order);
      var contents := seq(|order|, i requires 0 <= i < |order| => b.parents[order[i]].content);
      var e := EnrichedBatch(ext, sum, b, order);
      && |slots| == |b.chunks| == |e.chunks|
      && forall j :: 0 <= j < |slots| ==>
           && slots[j].group < |order| && slots[j].chunk < |b.chunks|
           && var c := b.chunks[slots[j].chunk];
              && e.chunks[j] == b.chunks[j].(prefix := e.chunks[j].prefix)
              && IsNewPrefix(ext, sum, contents, slots[j].group, c.content, c.prefix, e.chunks[j].prefix)
  {
    hide AllSlots, AllAliases, NewPrefix, IsNewPrefix;
    SlotsInRange(b.chunks, order);
    SlotsAreAllChunks(b, order);
    var slots := AllSlots(b.chunks, order);
    var contents := seq(|order|, i requires 0 <= i < |order| => b.parents[order[i]].content);
    assert ReadContents(b, order) == contents;
    forall j | 0 <= j < |slots|
      ensures var c := b.chunks[slots[j].chunk];
              IsNewPrefix(ext, sum, contents, slots[j].group, c.content, c.prefix,
                NewPrefix(ext, sum, contents, slots[j].group, c.content, c.prefix))
    {
      var c := b.chunks[slots[j].chunk];
      NewPrefixIs(ext, sum, contents, slots[j].group, c.content, c.prefix);
    }
  }

  // ------------------------------------------------------ which chunk stands where

  lemma {:induction false} ChildIdsAre(chunks: seq<ChunkRow>, parent: nat, n: nat)
    requires n <= |chunks|
    ensures var ids := ChildIds(chunks, parent, n);
            && (forall i, j :: 0 <= i < j < |ids| ==> ids[i] < ids[j])
            && (forall k :: 0 <= k < n && chunks[k].parent == parent ==> k in ids)
  {
    if n > 0 {
      ChildIdsAre(chunks, parent, n - 1);
    }
  }

  /** The slot names a chunk of the parent that stands at its group. */
  ghost predicate Fits(chunks: seq<ChunkRow>, order: seq<nat>, s: Slot) {
    s.group < |order| && s.chunk < |chunks| && chunks[s.chunk].parent == order[s.group]
  }

  ghost predicate Ascending(slots: seq<Slot>) {
    && (forall i, j :: 0 <= i < j < |slots| ==> slots[i].group <= slots[j].group)
    && (forall i, j :: 0 <= i < j < |slots| && slots[i].group == slots[j].group ==> slots[i].chunk < slots[j].chunk)
  }

  ghost predicate AllFit(chunks: seq<ChunkRow>, order: seq<nat>, slots: seq<Slot>, n: nat) {
    forall s :: s in slots ==> Fits(chunks, order, s) && s.group < n
  }

  lemma {:induction false} SlotsFit(chunks: seq<ChunkRow>, order: seq<nat>, n: nat)
    requires n <= |order|
    ensures AllFit(chunks, order, Slots(chunks, order, n), n)
  {
    if n > 0 {
      SlotsFit(chunks, order, n - 1);
      var last := SlotsOf(n - 1, ChildIds(chunks, order[n - 1], |chunks|));
      assert AllFit(chunks, order, last, n);
    }
  }

  lemma SlotsUnfold(chunks: seq<ChunkRow>, order: seq<nat>, n: nat)
    requires 0 < n <= |order|
    ensures Slots(chunks, order, n)
            == Slots(chunks, order, n - 1) + SlotsOf(n - 1, ChildIds(chunks, order[n - 1], |chunks|))
  {
  }

  lemma SlotsBelow(chunks: seq<ChunkRow>, order: seq<nat>, n: nat)
    requires n <= |order|
    ensures forall s :: s in Slots(chunks, order, n) ==> s.group < n
  {
    hide Slots, Fits;
    SlotsFit(chunks, order, n);
  }

  lemma AppendAscending(front: seq<Slot>, group: nat, ids: seq<nat>)
    requires Ascending(front) && forall s :: s in front ==> s.group < group
    requires forall i, j :: 0 <= i < j < |ids| ==> ids[i] < ids[j]
    ensures Ascending(front + SlotsOf(group, ids))
  {
    var all := front + SlotsOf(group, ids);
    forall i, j | 0 <= i < j < |all|
      ensures all[i].group <= all[j].group && (all[i].group == all[j].group ==> all[i].chunk < all[j].chunk)
    {
      if i < |front| {
        assert all[i] == front[i] && front[i] in front;
        assert j < |front| ==> all[j] == front[j];
      }
    }
  }

  lemma NoSlots(chunks: seq<ChunkRow>, order: seq<nat>)
    ensures Slots(chunks, order, 0) == [] && Ascending([])
  {
  }

  lemma {:induction false} SlotsAscend(chunks: seq<ChunkRow>, order: seq<nat>, n: nat)
    requires n <= |order|
    ensures Ascending(Slots(chunks, order, n))
  {
    hide *;
    if n == 0 {
      NoSlots(chunks, order);
    } else {
      SlotsUnfold(chunks, order, n);
      SlotsAscend(chunks, order, n - 1);
      SlotsBelow(chunks, order, n - 1);
      ChildIdsAre(chunks, order[n - 1], |chunks|);
      AppendAscending(Slots(chunks, order, n - 1), n - 1, ChildIds(chunks, order[n - 1], |chunks|));
    }
  }

  lemma {:induction false} SlotsComplete(chunks: seq<ChunkRow>, order: seq<nat>, n: nat, g: nat, k: nat)
    requires g < n <= |order| && k < |chunks| && chunks[k].parent == order[g]
    ensures Slot(g, k) in Slots(chunks, order, n)
  {
    hide *;
    SlotsUnfold(chunks, order, n);
    if g < n - 1 {
      SlotsComplete(chunks, order, n - 1, g, k);
    } else {
      OwnSlot(chunks, order[g], g, k);
    }
  }

  lemma OwnSlot(chunks: seq<ChunkRow>, parent: nat, g: nat, k: nat)
    requires k < |chunks| && chunks[k].parent == parent
    ensures Slot(g, k) in SlotsOf(g, ChildIds(chunks, parent, |chunks|))
  {
    hide ChildIds;
    var ids := ChildIds(chunks, parent, |chunks|);
    ChildIdsAre(chunks, parent, |chunks|);
    var i :| 0 <= i < |ids| && ids[i] == k;
    assert SlotsOf(g, ids)[i] == Slot(g, k);
  }

  /** The slots are those of the chunks of the groups read, ordered by group and then by index. */
  lemma SlotsRead(chunks: seq<ChunkRow>, order: seq<nat>)
    ensures
      var slots := AllSlots(chunks, order);
      && (forall i :: 0 <= i < |slots| ==> Fits(chunks, order, slots[i]))
      && Ascending(slots)
      && (forall g, k :: 0 <= g < |order| && 0 <= k < |chunks| && chunks[k].parent == order[g] ==> Slot(g, k) in slots)
  {
    SlotsFit(chunks, order, |order|);
    SlotsAscend(chunks, order, |order|);
    forall g: nat, k: nat | g < |order| && k < |chunks| && chunks[k].parent == order[g]
      ensures Slot(g, k) in AllSlots(chunks, order)
    {
      SlotsComplete(chunks, order, |order|, g, k);
    }
  }

  lemma SlotsInRange(chunks: seq<ChunkRow>, order: seq<nat>)
    ensures var slots := AllSlots(chunks, order);
            forall j :: 0 <= j < |slots| ==> slots[j].group < |order| && slots[j].chunk < |chunks|
  {
    SlotsRead(chunks, order);
  }

  /** Whatever the order, each chunk of the batch is read exactly once, so no row is left out of the match. */
  lemma SlotsAreAllChunks(b: Batch, order: seq<nat>)
    requires IsOrder(order, |b.parents|) && HasParents(b)
    ensures IsOrder(Map(ChunkOf, AllSlots(b.chunks, order)), |b.chunks|)
  {
    hide AllSlots;
    var slots, n := AllSlots(b.chunks, order), |b.chunks|;
    var ids := Map(ChunkOf, slots);
    SlotsRead(b.chunks, order);
    forall i, j | 0 <= i < j < |ids| ensures ids[i] != ids[j] {
      assert Fits(b.chunks, order, slots[i]) && Fits(b.chunks, order, slots[j]);
    }
    forall k | 0 <= k < n ensures k in ids {
      OrderCovers(order, |b.parents|, b.chunks[k].parent);
      var g :| 0 <= g < |order| && order[g] == b.chunks[k].parent;
      assert Slot(g, k) in slots;
      var i :| 0 <= i < |slots| && slots[i] == Slot(g, k);
      assert ids[i] == k;
    }
    SameLength(ids, n);
  }

  lemma SameLength(ids: seq<nat>, n: nat)
    requires Distinct(ids) && (forall i :: 0 <= i < |ids| ==> ids[i] < n) && (forall k :: 0 <= k < n ==> k in ids)
    ensures |ids| == n
  {
    DistinctCardinality(ids);
    DistinctCardinality(Range(n));
    forall k: nat ensures k in ids <==> k in Range(n) {
      if k < n {
        assert Range(n)[k] == k;
      }
    }
    assert Elements(ids) == Elements(Range(n));
  }

  predicate Owns(chunks: seq<ChunkRow>, parent: nat) {
    exists k :: 0 <= k < |chunks| && chunks[k].parent == parent
  }

  /** Of any two parents that have chunks, the one inserted first is read first. */
  ghost predicate OwnersInOrder(chunks: seq<ChunkRow>, order: seq<nat>) {
    forall g, h :: 0 <= g < h < |order| && Owns(chunks, order[g]) && Owns(chunks, order[h]) ==> order[g] < order[h]
  }

  /** Chunks were numbered parent by parent. */
  predicate ByParent(chunks: seq<ChunkRow>) {
    forall j, k :: 0 <= j < k < |chunks| ==> chunks[j].parent <= chunks[k].parent
  }

  lemma {:induction false} IncreasingFloor(ids: seq<nat>, i: nat)
    requires i < |ids| && forall a, b :: 0 <= a < b < |ids| ==> ids[a] < ids[b]
    ensures i <= ids[i]
  {
    if i > 0 {
      IncreasingFloor(ids, i - 1);
    }
  }

  lemma {:induction false} IncreasingCeiling(ids: seq<nat>, n: nat, i: nat)
    requires |ids| == n && i < n && (forall a :: 0 <= a < n ==> ids[a] < n)
    requires forall a, b :: 0 <= a < b < n ==> ids[a] < ids[b]
    ensures ids[i] <= i
    decreases n - i
  {
    if i < n - 1 {
      IncreasingCeiling(ids, n, i + 1);
    }
  }

  lemma IncreasingIsRange(ids: seq<nat>, n: nat)
    requires IsOrder(ids, n) && forall a, b :: 0 <= a < b < n ==> ids[a] < ids[b]
    ensures ids == Range(n)
  {
    forall i | 0 <= i < n ensures ids[i] == i {
      IncreasingFloor(ids, i);
      IncreasingCeiling(ids, n, i);
    }
  }

  /**
   * The exact condition for the match by position: every row is matched with its own chunk if and
   * only if the parents that have chunks come back in the order in which they were inserted.
   */
  lemma MatchedByPosition(b: Batch, order: seq<nat>)
    requires IsOrder(order, |b.parents|) && HasParents(b) && ByParent(b.chunks)
    ensures Map(ChunkOf, AllSlots(b.chunks, order)) == Range(|b.chunks|) <==> OwnersInOrder(b.chunks, order)
  {
    hide AllSlots;
    if OwnersInOrder(b.chunks, order) {
      InOrderIsRange(b, order);
    }
    if Map(ChunkOf, AllSlots(b.chunks, order)) == Range(|b.chunks|) {
      RangeIsInOrder(b, order);
    }
  }

  lemma InOrderIsRange(b: Batch, order: seq<nat>)
    requires IsOrder(order, |b.parents|) && HasParents(b) && ByParent(b.chunks) && OwnersInOrder(b.chunks, order)
    ensures Map(ChunkOf, AllSlots(b.chunks, order)) == Range(|b.chunks|)
  {
    hide AllSlots;
    var slots := AllSlots(b.chunks, order);
    var ids := Map(ChunkOf, slots);
    SlotsRead(b.chunks, order);
    SlotsAreAllChunks(b, order);
    forall i, j | 0 <= i < j < |ids| ensures ids[i] < ids[j] {
      var s, t := slots[i], slots[j];
      assert Fits(b.chunks, order, s) && Fits(b.chunks, order, t);
      assert s.group < t.group ==> b.chunks[s.chunk].parent < b.chunks[t.chunk].parent;
    }
    IncreasingIsRange(ids, |b.chunks|);
  }

  lemma RangeIsInOrder(b: Batch, order: seq<nat>)
    requires IsOrder(order, |b.parents|) && HasParents(b) && ByParent(b.chunks)
    requires Map(ChunkOf, AllSlots(b.chunks, order)) == Range(|b.chunks|)
    ensures OwnersInOrder(b.chunks, order)
  {
    hide AllSlots, ByParent;
    forall g, h | 0 <= g < h < |order| && Owns(b.chunks, order[g]) && Owns(b.chunks, order[h])
      ensures order[g] < order[h]
    {
      var j :| 0 <= j < |b.chunks| && b.chunks[j].parent == order[g];
      var k :| 0 <= k < |b.chunks| && b.chunks[k].parent == order[h];
      OwnPlace(b, order, g, j);
      OwnPlace(b, order, h, k);
      PlacesAscend(b, order, j, k);
    }
  }

  lemma OwnPlace(b: Batch, order: seq<nat>, g: nat, k: nat)
    requires Map(ChunkOf, AllSlots(b.chunks, order)) == Range(|b.chunks|)
    requires g < |order| && k < |b.chunks| && b.chunks[k].parent == order[g]
    ensures k < |AllSlots(b.chunks, order)| && AllSlots(b.chunks, order)[k] == Slot(g, k)
  {
    hide AllSlots, Fits, Ascending;
    var slots := AllSlots(b.chunks, order);
    SlotsRead(b.chunks, order);
    assert Slot(g, k) in slots;
    var i :| 0 <= i < |slots| && slots[i] == Slot(g, k);
    assert Map(ChunkOf, slots)[i] == i;
  }

  lemma PlacesAscend(b: Batch, order: seq<nat>, j: nat, k: nat)
    requires IsOrder(order, |b.parents|) && ByParent(b.chunks)
    requires var slots := AllSlots(b.chunks, order);
             && j < |slots| && k < |slots| && slots[j].group < slots[k].group
             && slots[j].chunk == j && slots[k].chunk == k
    ensures var slots := AllSlots(b.chunks, order);
            slots[k].group < |order| && order[slots[j].group] < order[slots[k].group]
  {
    hide AllSlots;
    SlotsRead(b.chunks, order);
  }

  // ------------------------------------------------------ what each row should get

  /** Chunk k with the prefix computed from its own text and its own neighbourhood. */
  function OwnPrefix(ext: External, sum: Summary, b: Batch, k: nat): string
    requires k < |b.chunks|
  {
    var c := b.chunks[k];
    NewPrefix(ext, sum, Map(ContentOf, b.parents), c.parent, c.content, c.prefix)
  }

  function OwnPrefixes(ext: External, sum: Summary, b: Batch): (rows: seq<ChunkRow>)
    ensures |rows| == |b.chunks|
    ensures forall k :: 0 <= k < |b.chunks| ==> rows[k] == b.chunks[k].(prefix := OwnPrefix(ext, sum, b, k))
  {
    seq(|b.chunks|, k requires 0 <= k < |b.chunks| => b.chunks[k].(prefix := OwnPrefix(ext, sum, b, k)))
  }

  function Texts(chunks: seq<ChunkRow>): (texts: seq<string>)
    ensures |texts| == |chunks| && forall k :: 0 <= k < |chunks| ==> texts[k] == chunks[k].content
  {
    seq(|chunks|, k requires 0 <= k < |chunks| => chunks[k].content)
  }

  /** The batch in which every row got what was computed from its own chunk. */
  function ProperlyEnriched(ext: External, sum: Summary, b: Batch): Batch {
    b.(enrichment := BatchCompleted, chunks := OwnPrefixes(ext, sum, b), aliases := b.aliases + AllAliases(ext, Texts(b.chunks)))
  }

  lemma InsertionOrderMatches(b: Batch)
    requires HasParents(b) && ByParent(b.chunks)
    ensures
      var slots := AllSlots(b.chunks, Range(|b.parents|));
      |slots| == |b.chunks| && forall k :: 0 <= k < |slots| ==> slots[k] == Slot(b.chunks[k].parent, k)
  {
    hide AllSlots;
    var order := Range(|b.parents|);
    RangeIsOrder(|b.parents|);
    InOrderIsRange(b, order);
    SlotsRead(b.chunks, order);
    var slots := AllSlots(b.chunks, order);
    forall k | 0 <= k < |slots| ensures slots[k] == Slot(b.chunks[k].parent, k) {
      assert slots[k].chunk == Map(ChunkOf, slots)[k] == k && Fits(b.chunks, order, slots[k]);
    }
  }

  /** When parents are read in insertion order, every prefix and alias goes to the chunk whose text produced it. */
  lemma EnrichedProperly(ext: External, sum: Summary, b: Batch)
    requires HasParents(b) && ByParent(b.chunks)
    ensures IsOrder(Range(|b.parents|), |b.parents|)
    ensures EnrichedBatch(ext, sum, b, Range(|b.parents|)) == ProperlyEnriched(ext, sum, b)
  {
    hide AllSlots, AllAliases, NewPrefix;
    var order := Range(|b.parents|);
    RangeIsOrder(|b.parents|);
    InsertionOrderMatches(b);
    SlotsInRange(b.chunks, order);
    var slots := AllSlots(b.chunks, order);
    assert Reordered(b.parents, order) == b.parents;
    assert SlotContents(b.chunks, slots) == Texts(b.chunks);
    assert WithPrefixes(b.chunks, SlotPrefixes(ext, sum, ReadContents(b, order), b.chunks, slots))
           == OwnPrefixes(ext, sum, b);
  }

  /** Without that hypothesis it fails: with two parents read back swapped, each row gets the other's prefix. */
  lemma SwappedParentsSwapPrefixes(ext: External, sum: Summary, b: Batch)
    requires |b.parents| == 2 && |b.chunks| == 2
    requires b.chunks[0].parent == 0 && b.chunks[1].parent == 1
    requires forall document, section, neighbors, text :: ext.context(document, section, neighbors, text) == text
    requires b.chunks[0].content != "" && b.chunks[1].content != "" && b.chunks[0].content != b.chunks[1].content
    ensures IsOrder([1, 0], 2)
    ensures EnrichedBatch(ext, sum, b, [1, 0]).chunks[0].prefix == b.chunks[1].content
    ensures EnrichedBatch(ext, sum, b, [1, 0]).chunks[1].prefix == b.chunks[0].content
    ensures EnrichedBatch(ext, sum, b, [1, 0]) != ProperlyEnriched(ext, sum, b)
  {
    hide AllSlots, AllAliases, Neighbors, SectionContext;
    var order: seq<nat> := [1, 0];
    SwappedSlots(b.chunks);
    var slots := AllSlots(b.chunks, order);
    var prefixes := SlotPrefixes(ext, sum, ReadContents(b, order), b.chunks, slots);
    assert prefixes == [b.chunks[1].content, b.chunks[0].content];
    assert EnrichedBatch(ext, sum, b, order).chunks == WithPrefixes(b.chunks, prefixes);
    assert ProperlyEnriched(ext, sum, b).chunks[0].prefix == b.chunks[0].content;
  }

  lemma SwappedSlots(chunks: seq<ChunkRow>)
    requires |chunks| == 2 && chunks[0].parent == 0 && chunks[1].parent == 1
    ensures AllSlots(chunks, [1, 0]) == [Slot(0, 1), Slot(1, 0)]
  {
    hide ChildIds;
    var order: seq<nat> := [1, 0];
    TwoChildren(chunks);
    assert SlotsOf(0, [1]) == [Slot(0, 1)] && SlotsOf(1, [0]) == [Slot(1, 0)];
    assert Slots(chunks, order, 0) == [] && Slots(chunks, order, 1) == [Slot(0, 1)];
  }

  lemma TwoChildren(chunks: seq<ChunkRow>)
    requires |chunks| == 2 && chunks[0].parent == 0 && chunks[1].parent == 1
    ensures ChildIds(chunks, 0, 2) == [0] && ChildIds(chunks, 1, 2) == [1]
  {
    assert ChildIds(chunks, 0, 0) == ChildIds(chunks, 1, 0) == [];
    assert ChildIds(chunks, 0, 1) == [0] && ChildIds(chunks, 1, 1) == [];
  }

  // ------------------------------------------------------ the loops

  /** A chunk in memory. `at` is its place: its group and, within it, 0 for the parent and c + 1 for child c. */
  class ChunkResult {
    const content: string
    var prefix: string
    const tokens: nat
    const contentType: string
    ghost const at: (nat, nat)

    constructor (content: string, prefix: string, tokens: nat, contentType: string, ghost at: (nat, nat))
      ensures this.content == content && this.prefix == prefix && this.tokens == tokens
      ensures this.contentType == contentType && this.at == at
    {
      this.content, this.prefix, this.tokens, this.contentType, this.at := content, prefix, tokens, contentType, at;
    }
  }

  datatype LoadedGroup = LoadedGroup(parent: ChunkResult, children: seq<ChunkResult>)

  /** The question and the chunk it was asked for. */
  datatype AliasData = AliasData(question: string, chunk: ChunkResult)

  ghost predicate InPlace(group: LoadedGroup, g: nat) {
    group.parent.at == (g, 0) && forall c :: 0 <= c < |group.children| ==> group.children[c].at == (g, c + 1)
  }

  ghost predicate AllInPlace(groups: seq<LoadedGroup>) {
    forall g :: 0 <= g < |groups| ==> InPlace(groups[g], g)
  }

  function Flatten(groups: seq<LoadedGroup>, n: nat): seq<ChunkResult>
    requires n <= |groups|
  {
    if n == 0 then [] else Flatten(groups, n - 1) + groups[n - 1].children
  }

  function ContentsOf(groups: seq<LoadedGroup>): (contents: seq<string>)
    ensures |contents| == |groups| && forall g :: 0 <= g < |groups| ==> contents[g] == groups[g].parent.content
  {
    seq(|groups|, g requires 0 <= g < |groups| => groups[g].parent.content)
  }

  /** The group holds parent p of the batch with its chunks, as they are stored. */
  ghost predicate HoldsParent(group: LoadedGroup, b: Batch, p: nat)
    requires p < |b.parents|
  {
    var ids := ChildIds(b.chunks, p, |b.chunks|);
    && group.parent.content == b.parents[p].content && group.parent.tokens == b.parents[p].tokens
    && |group.children| == |ids|
    && forall c :: 0 <= c < |ids| ==> SameText(group.children[c], b.chunks[ids[c]])
  }

  ghost predicate SameText(child: ChunkResult, c: ChunkRow) {
    child.content == c.content && child.tokens == c.tokens && child.contentType == c.contentType
  }

  ghost predicate HasPrefixes(group: LoadedGroup, chunks: seq<ChunkRow>, ids: seq<nat>)
    reads group.children
  {
    && |group.children| == |ids|
    && forall c :: 0 <= c < |ids| ==> ids[c] < |chunks| && group.children[c].prefix == chunks[ids[c]].prefix
  }

  ghost predicate IsStored(child: ChunkResult, slot: Slot, chunks: seq<ChunkRow>)
    reads child
  {
    && slot.chunk < |chunks|
    && SameText(child, chunks[slot.chunk]) && child.prefix == chunks[slot.chunk].prefix
    && child.at.0 == slot.group
  }

  ghost predicate AllStored(flat: seq<ChunkResult>, slots: seq<Slot>, chunks: seq<ChunkRow>)
    reads flat
  {
    |flat| == |slots| && forall j :: 0 <= j < |flat| ==> IsStored(flat[j], slots[j], chunks)
  }

  /** The chunks in memory are the stored ones, in the order of the slots, each an object of its own. */
  ghost predicate ReadBack(flat: seq<ChunkResult>, slots: seq<Slot>, chunks: seq<ChunkRow>)
    reads flat
  {
    Distinct(flat) && AllStored(flat, slots, chunks)
  }

  method LoadGroup(b: Batch, p: nat, ghost g: nat) returns (group: LoadedGroup)
    requires p < |b.parents|
    ensures InPlace(group, g) && HoldsParent(group, b, p)
    ensures HasPrefixes(group, b.chunks, ChildIds(b.chunks, p, |b.chunks|))
    ensures fresh(group.parent) && forall o :: o in group.children ==> fresh(o)
  {
    var ids := ChildIds(b.chunks, p, |b.chunks|);
    var parent := new ChunkResult(b.parents[p].content, "", b.parents[p].tokens, "text", (g, 0));
    var children: seq<ChunkResult> := [];
    for i := 0 to |ids|
      invariant |children| == i && fresh(parent) && forall o :: o in children ==> fresh(o)
      invariant forall c :: 0 <= c < i ==>
                  SameText(children[c], b.chunks[ids[c]]) && children[c].prefix == b.chunks[ids[c]].prefix
                  && children[c].at == (g, c + 1)
    {
      var c := b.chunks[ids[i]];
      var child := new ChunkResult(c.content, c.prefix, c.tokens, c.contentType, (g, i + 1));
      children := children + [child];
    }
    group := LoadedGroup(parent, children);
  }

  lemma AppendDistinct(flat: seq<ChunkResult>, more: seq<ChunkResult>, g: nat)
    requires Distinct(flat) && forall o :: o in flat ==> o.at.0 < g
    requires forall c :: 0 <= c < |more| ==> more[c].at == (g, c + 1)
    ensures Distinct(flat + more)
  {
    var all := flat + more;
    forall i, j | 0 <= i < j < |all| ensures all[i] != all[j] {
      if i < |flat| {
        assert all[i] == flat[i] && flat[i] in flat;
        assert |flat| <= j ==> all[j] == more[j - |flat|];
      } else {
        assert all[i].at == (g, i - |flat| + 1) && all[j].at == (g, j - |flat| + 1);
      }
    }
  }

  lemma AppendStored(a: seq<ChunkResult>, s: seq<Slot>, b: seq<ChunkResult>, t: seq<Slot>, chunks: seq<ChunkRow>)
    requires AllStored(a, s, chunks) && AllStored(b, t, chunks)
    ensures AllStored(a + b, s + t, chunks)
  {
    hide IsStored;
  }

  lemma GroupStored(group: LoadedGroup, g: nat, b: Batch, p: nat)
    requires p < |b.parents| && InPlace(group, g) && HoldsParent(group, b, p)
    requires HasPrefixes(group, b.chunks, ChildIds(b.chunks, p, |b.chunks|))
    ensures AllStored(group.children, SlotsOf(g, ChildIds(b.chunks, p, |b.chunks|)), b.chunks)
  {
    hide SameText, ChildIds;
  }

  lemma OneGroupMore(flat: seq<ChunkResult>, slots: seq<Slot>, group: LoadedGroup, g: nat, b: Batch, p: nat)
    requires p < |b.parents| && ReadBack(flat, slots, b.chunks)
    requires InPlace(group, g) && HoldsParent(group, b, p)
    requires HasPrefixes(group, b.chunks, ChildIds(b.chunks, p, |b.chunks|))
    requires forall o :: o in flat ==> o.at.0 < g
    ensures ReadBack(flat + group.children, slots + SlotsOf(g, ChildIds(b.chunks, p, |b.chunks|)), b.chunks)
  {
    hide HoldsParent, HasPrefixes, ChildIds, Distinct, AllStored;
    var ids := ChildIds(b.chunks, p, |b.chunks|);
    AppendDistinct(flat, group.children, g);
    GroupStored(group, g, b, p);
    AppendStored(flat, slots, group.children, SlotsOf(g, ids), b.chunks);
  }

  method LoadChunkGroups(b: Batch, order: seq<nat>) returns (groups: seq<LoadedGroup>, ghost flat: seq<ChunkResult>)
    requires IsOrder(order, |b.parents|)
    ensures |groups| == |order| && AllInPlace(groups) && ContentsOf(groups) == ReadContents(b, order)
    ensures flat == AllChildren(groups) && ReadBack(flat, AllSlots(b.chunks, order), b.chunks)
    ensures forall o :: o in Objects(groups) ==> fresh(o)
  {
    hide ChildIds, HoldsParent, ReadBack, HasPrefixes, InPlace, Slots, Flatten;
    groups, flat := [], [];
    NothingRead(b.chunks, order);
    for g := 0 to |order|
      invariant |groups| == g && AllInPlace(groups) && flat == Flatten(groups, g)
      invariant forall h :: 0 <= h < g ==> groups[h].parent.content == b.parents[order[h]].content
      invariant ReadBack(flat, Slots(b.chunks, order, g), b.chunks)
      invariant forall h :: 0 <= h < g ==> fresh(groups[h].parent)
      invariant forall h :: 0 <= h < g ==> forall o :: o in groups[h].children ==> fresh(o)
      invariant forall o :: o in flat ==> o.at.0 < g
    {
      var group := LoadGroup(b, order[g], g);
      SameParent(group, b, order[g]);
      ChildrenAt(group, g);
      OneGroupMore(flat, Slots(b.chunks, order, g), group, g, b, order[g]);
      SlotsUnfold(b.chunks, order, g + 1);
      FlattenMore(groups, group);
      groups := groups + [group];
      flat := flat + group.children;
    }
    ObjectsOf(groups);
  }

  lemma SameParent(group: LoadedGroup, b: Batch, p: nat)
    requires p < |b.parents| && HoldsParent(group, b, p)
    ensures group.parent.content == b.parents[p].content
  {
    hide ChildIds;
  }

  lemma ChildrenAt(group: LoadedGroup, g: nat)
    requires InPlace(group, g)
    ensures forall o :: o in group.children ==> o.at.0 == g
  {
  }

  lemma NothingRead(chunks: seq<ChunkRow>, order: seq<nat>)
    ensures ReadBack([], Slots(chunks, order, 0), chunks) && Flatten([], 0) == []
  {
  }

  lemma {:induction false} FlattenPrefix(groups: seq<LoadedGroup>, group: LoadedGroup, n: nat)
    requires n <= |groups|
    ensures Flatten(groups + [group], n) == Flatten(groups, n)
  {
    if n > 0 {
      FlattenPrefix(groups, group, n - 1);
    }
  }

  lemma FlattenMore(groups: seq<LoadedGroup>, group: LoadedGroup)
    ensures Flatten(groups + [group], |groups| + 1) == Flatten(groups, |groups|) + group.children
  {
    FlattenPrefix(groups, group, |groups|);
  }

  method GetNeighbors(groups: seq<LoadedGroup>, g: nat) returns (neighbors: string)
    requires g < |groups|
    ensures neighbors == Neighbors(ContentsOf(groups), g)
  {
    var start := if g < NEIGHBOR_RANGE then 0 else g - NEIGHBOR_RANGE;
    var end := Min(|groups|, g + NEIGHBOR_RANGE + 1);
    var parts: seq<string> := [];
    for i := start to end
      invariant parts == NeighborParts(ContentsOf(groups), g, start, i)
    {
      if i != g {
        parts := parts + [Shortened(groups[i].parent.content)];
      }
    }
    neighbors := Join("\n---\n", parts);
  }

  /** Asks for the context of one chunk; an empty answer keeps its prefix. */
  method EnrichOne(ext: External, sum: Summary, groups: seq<LoadedGroup>, g: nat, chunk: ChunkResult)
    requires g < |groups|
    modifies chunk
    ensures chunk.prefix == NewPrefix(ext, sum, ContentsOf(groups), g, chunk.content, old(chunk.prefix))
    ensures IsNewPrefix(ext, sum, ContentsOf(groups), g, chunk.content, old(chunk.prefix), chunk.prefix)
  {
    NewPrefixIs(ext, sum, ContentsOf(groups), g, chunk.content, chunk.prefix);
    var neighbors := GetNeighbors(groups, g);
    var context := ext.context(sum.document, SectionContext(sum.sections), neighbors, chunk.content);
    if context != "" {
      chunk.prefix := context;
    }
  }

  ghost function Members(group: LoadedGroup): set<ChunkResult> {
    {group.parent} + Elements(group.children)
  }

  method EnrichGroup(ext: External, sum: Summary, groups: seq<LoadedGroup>, g: nat)
    requires g < |groups| && InPlace(groups[g], g)
    modifies Members(groups[g])
    ensures forall o :: o in Members(groups[g]) ==>
              o.prefix == NewPrefix(ext, sum, ContentsOf(groups), g, o.content, old(o.prefix))
  {
    hide NewPrefix;
    var parent, children := groups[g].parent, groups[g].children;
    EnrichOne(ext, sum, groups, g, parent);
    for c := 0 to |children|
      invariant parent.prefix == NewPrefix(ext, sum, ContentsOf(groups), g, parent.content, old(parent.prefix))
      invariant forall i :: 0 <= i < c ==>
                  children[i].prefix == NewPrefix(ext, sum, ContentsOf(groups), g, children[i].content, old(children[i].prefix))
      invariant forall i :: c <= i < |children| ==> children[i].prefix == old(children[i].prefix)
    {
      assert children[c].at == (g, c + 1);
      EnrichOne(ext, sum, groups, g, children[c]);
    }
  }

  function Parents(groups: seq<LoadedGroup>): (parents: seq<ChunkResult>)
    ensures |parents| == |groups| && forall g :: 0 <= g < |groups| ==> parents[g] == groups[g].parent
  {
    seq(|groups|, g requires 0 <= g < |groups| => groups[g].parent)
  }

  function AllChildren(groups: seq<LoadedGroup>): seq<ChunkResult> {
    Flatten(groups, |groups|)
  }

  lemma {:induction false} FlattenAt(groups: seq<LoadedGroup>, n: nat)
    requires AllInPlace(groups) && n <= |groups|
    ensures forall o :: o in Flatten(groups, n) ==> o.at.0 < n && o in groups[o.at.0].children
    ensures forall g, o :: 0 <= g < n && o in groups[g].children ==> o in Flatten(groups, n)
  {
    if n > 0 {
      FlattenAt(groups, n - 1);
      assert InPlace(groups[n - 1], n - 1);
    }
  }

  ghost function Objects(groups: seq<LoadedGroup>): set<ChunkResult> {
    Elements(Parents(groups)) + Elements(AllChildren(groups))
  }

  /** Each chunk is enriched once; `gather` runs the requests in any order, and none reads what another writes. */
  method EnrichChunksWithSummaries(ext: External, groups: seq<LoadedGroup>, sum: Summary, ghost flat: seq<ChunkResult>)
    requires AllInPlace(groups) && flat == AllChildren(groups)
    modifies Objects(groups)
    ensures forall o :: o in flat ==>
              o.prefix == NewPrefix(ext, sum, ContentsOf(groups), o.at.0, o.content, old(o.prefix))
  {
    hide NewPrefix, Flatten, InPlace, Members, Objects;
    ChildrenAreObjects(groups);
    for g := 0 to |groups|
      invariant forall o :: o in flat && o.at.0 < g ==>
                  o.prefix == NewPrefix(ext, sum, ContentsOf(groups), o.at.0, o.content, old(o.prefix))
      invariant forall o :: o in flat && o.at.0 >= g ==> o.prefix == old(o.prefix)
    {
      GroupIsPart(groups, g);
      EnrichGroup(ext, sum, groups, g);
    }
  }

  lemma ChildrenAreObjects(groups: seq<LoadedGroup>)
    requires AllInPlace(groups)
    ensures forall o :: o in AllChildren(groups) ==> o in Objects(groups) && o.at.0 < |groups|
  {
    FlattenAt(groups, |groups|);
  }

  lemma GroupIsPart(groups: seq<LoadedGroup>, g: nat)
    requires AllInPlace(groups) && g < |groups|
    ensures InPlace(groups[g], g) && Members(groups[g]) <= Objects(groups)
    ensures forall o :: o in Members(groups[g]) ==> o.at.0 == g
    ensures forall o :: o in AllChildren(groups) && o.at.0 == g ==> o in Members(groups[g])
  {
    hide Flatten;
    FlattenAt(groups, |groups|);
    assert Parents(groups)[g] == groups[g].parent;
    assert InPlace(groups[g], g);
  }

  function Asked(ext: External, child: ChunkResult): (data: seq<AliasData>)
    ensures |data| == |Questions(ext, child.content)|
    ensures forall q :: 0 <= q < |data| ==> data[q] == AliasData(Questions(ext, child.content)[q], child)
  {
    var questions := Questions(ext, child.content);
    seq(|questions|, q requires 0 <= q < |questions| => AliasData(questions[q], child))
  }

  function AskedAll(ext: External, flat: seq<ChunkResult>): seq<AliasData> {
    if flat == [] then [] else AskedAll(ext, flat[..|flat| - 1]) + Asked(ext, flat[|flat| - 1])
  }

  method GenerateTableAliases(ext: External, groups: seq<LoadedGroup>) returns (aliases: seq<AliasData>)
    ensures aliases == AskedAll(ext, AllChildren(groups))
  {
    hide *;
    aliases := [];
    NothingAsked(ext, groups);
    for g := 0 to |groups|
      invariant aliases == AskedAll(ext, Flatten(groups, g))
    {
      aliases := AskGroup(ext, Flatten(groups, g), groups[g].children, aliases);
      FlattenStep(groups, g);
    }
    IsAllChildren(groups);
  }

  method AskGroup(ext: External, ghost flat: seq<ChunkResult>, children: seq<ChunkResult>, before: seq<AliasData>)
    returns (aliases: seq<AliasData>)
    requires before == AskedAll(ext, flat)
    ensures aliases == AskedAll(ext, flat + children)
  {
    hide *;
    aliases := before;
    assert flat + children[..0] == flat;
    for c := 0 to |children|
      invariant aliases == AskedAll(ext, flat + children[..c])
    {
      AskOneMore(ext, flat, children, c);
      var asked := AskAbout(ext, children[c]);
      aliases := aliases + asked;
    }
    assert children[..|children|] == children;
  }

  lemma NothingAsked(ext: External, groups: seq<LoadedGroup>)
    ensures AskedAll(ext, Flatten(groups, 0)) == []
  {
  }

  lemma FlattenStep(groups: seq<LoadedGroup>, g: nat)
    requires g < |groups|
    ensures Flatten(groups, g + 1) == Flatten(groups, g) + groups[g].children
  {
  }

  lemma IsAllChildren(groups: seq<LoadedGroup>)
    ensures AllChildren(groups) == Flatten(groups, |groups|)
  {
  }

  method AskAbout(ext: External, child: ChunkResult) returns (aliases: seq<AliasData>)
    ensures aliases == Asked(ext, child)
  {
    aliases := [];
    if ext.isTable(child.content) {
      var questions := ext.questions(child.content);
      for q := 0 to |questions|
        invariant aliases == Asked(ext, child)[..q]
      {
        aliases := aliases + [AliasData(questions[q], child)];
      }
    }
  }

  lemma AskOneMore(ext: External, flat: seq<ChunkResult>, children: seq<ChunkResult>, c: nat)
    requires c < |children|
    ensures AskedAll(ext, flat + children[..c + 1]) == AskedAll(ext, flat + children[..c]) + Asked(ext, children[c])
  {
    var all := flat + children[..c + 1];
    assert all[..|all| - 1] == flat + children[..c];
  }

  /** The alias rows for the questions: each goes to the row that its chunk object was matched with. */
  function RowsFor(ext: External, data: seq<AliasData>, ids: map<ChunkResult, nat>): (rows: seq<AliasRow>)
    requires forall d :: d in data ==> d.chunk in ids
    ensures |rows| == |data|
    ensures forall i :: 0 <= i < |data| ==>
              rows[i] == AliasRow(ids[data[i].chunk], data[i].question, ext.countTokens(data[i].question), None)
  {
    seq(|data|, i requires 0 <= i < |data| =>
      AliasRow(ids[data[i].chunk], data[i].question, ext.countTokens(data[i].question), None))
  }

  /** Chunk object j was matched with row j. */
  ghost predicate Matched(flat: seq<ChunkResult>, ids: map<ChunkResult, nat>, contents: seq<string>) {
    && |contents| == |flat|
    && forall j :: 0 <= j < |flat| ==> flat[j] in ids && ids[flat[j]] == j && flat[j].content == contents[j]
  }

  lemma {:induction false} RowsForAsked(ext: External, flat: seq<ChunkResult>, ids: map<ChunkResult, nat>,
    contents: seq<string>, n: nat)
    requires n <= |flat| && Matched(flat, ids, contents)
    ensures forall d :: d in AskedAll(ext, flat[..n]) ==> d.chunk in ids
    ensures RowsFor(ext, AskedAll(ext, flat[..n]), ids) == AliasesTo(ext, contents, n)
  {
    hide Asked, Questions, RowsFor;
    if n == 0 {
      assert AskedAll(ext, flat[..0]) == [] && RowsFor(ext, [], ids) == [];
    } else {
      RowsForAsked(ext, flat, ids, contents, n - 1);
      assert flat[..n][..n - 1] == flat[..n - 1];
      var front, last := AskedAll(ext, flat[..n - 1]), Asked(ext, flat[n - 1]);
      assert AskedAll(ext, flat[..n]) == front + last;
      assert forall d :: d in last ==> d.chunk == flat[n - 1];
      RowsForAppend(ext, front, last, ids);
      assert RowsFor(ext, last, ids) == AliasRows(ext, n - 1, Questions(ext, contents[n - 1]));
    }
  }

  lemma RowsForAppend(ext: External, a: seq<AliasData>, b: seq<AliasData>, ids: map<ChunkResult, nat>)
    requires forall d :: d in a ==> d.chunk in ids
    requires forall d :: d in b ==> d.chunk in ids
    ensures forall d :: d in a + b ==> d.chunk in ids
    ensures RowsFor(ext, a + b, ids) == RowsFor(ext, a, ids) + RowsFor(ext, b, ids)
  {
    hide RowsFor;
  }

  lemma ObjectsOf(groups: seq<LoadedGroup>)
    requires AllInPlace(groups)
    ensures forall o :: o in Objects(groups) ==>
              exists g :: 0 <= g < |groups| && (o == groups[g].parent || o in groups[g].children)
  {
    FlattenAt(groups, |groups|);
    forall o | o in Objects(groups)
      ensures exists g :: 0 <= g < |groups| && (o == groups[g].parent || o in groups[g].children)
    {
      if o in Parents(groups) {
        var g :| 0 <= g < |groups| && Parents(groups)[g] == o;
        assert o == groups[g].parent;
      } else {
        assert o in groups[o.at.0].children;
      }
    }
  }

  /** The enriched chunks in memory carry the prefixes meant for the slots they were read for. */
  lemma PrefixesOfFlat(
    ext: External, sum: Summary, contents: seq<string>, chunks: seq<ChunkRow>, slots: seq<Slot>,
    flat: seq<ChunkResult>, before: seq<string>, after: seq<string>)
    requires |flat| == |slots| == |before| == |after| && forall j :: 0 <= j < |slots| ==> slots[j].chunk < |chunks|
    requires forall j :: 0 <= j < |flat| ==>
               && SameText(flat[j], chunks[slots[j].chunk]) && flat[j].at.0 == slots[j].group
               && before[j] == chunks[slots[j].chunk].prefix
               && after[j] == NewPrefix(ext, sum, contents, flat[j].at.0, flat[j].content, before[j])
    ensures after == SlotPrefixes(ext, sum, contents, chunks, slots)
  {
    hide NewPrefix;
  }

  function PrefixOf(flat: seq<ChunkResult>): (prefixes: seq<string>)
    reads flat
    ensures |prefixes| == |flat| && forall j :: 0 <= j < |flat| ==> prefixes[j] == flat[j].prefix
  {
    seq(|flat|, j requires 0 <= j < |flat| reads flat => flat[j].prefix)
  }

  /** Reads the chunks of a batch back and gives each the prefix that its place calls for. */
  method ReadAndEnrich(ext: External, sum: Summary, b: Batch, order: seq<nat>)
    returns (groups: seq<LoadedGroup>, ghost flat: seq<ChunkResult>)
    requires IsOrder(order, |b.parents|)
    ensures flat == AllChildren(groups) && Distinct(flat)
    ensures var slots := AllSlots(b.chunks, order);
            && |flat| == |slots| && (forall j :: 0 <= j < |slots| ==> slots[j].chunk < |b.chunks|)
            && PrefixOf(flat) == SlotPrefixes(ext, sum, ReadContents(b, order), b.chunks, slots)
            && forall j :: 0 <= j < |slots| ==> flat[j].content == SlotContents(b.chunks, slots)[j]
  {
    hide *;
    groups, flat := LoadChunkGroups(b, order);
    ObjectsOf(groups);
    ghost var slots, before := AllSlots(b.chunks, order), PrefixOf(flat);
    StoredPrefixes(flat, slots, b.chunks);
    EnrichChunksWithSummaries(ext, groups, sum, flat);
    ghost var after := PrefixOf(flat);
    PrefixesOfFlat(ext, sum, ContentsOf(groups), b.chunks, slots, flat, before, after);
    SlotTexts(flat, slots, b.chunks);
  }

  /** Matches the chunks read back with the rows by position, and asks for the questions about tables. */
  method MatchAndAsk(
    ext: External, rows: seq<ChunkRow>, groups: seq<LoadedGroup>, ghost flat: seq<ChunkResult>, ghost contents: seq<string>)
    returns (chunks: seq<ChunkRow>, aliases: seq<AliasRow>)
    requires flat == AllChildren(groups) && Distinct(flat) && |contents| == |flat| <= |rows|
    requires forall j :: 0 <= j < |flat| ==> flat[j].content == contents[j]
    ensures chunks == WithPrefixes(rows, PrefixOf(flat))
    ensures aliases == AliasesTo(ext, contents, |contents|)
  {
    hide *;
    var children := FlattenChildren(groups);
    var ids;
    chunks, ids := MatchRows(rows, children);
    ChildrenMatched(flat, ids, contents);
    var data := GenerateTableAliases(ext, groups);
    assert flat[..|flat|] == flat;
    RowsForAsked(ext, flat, ids, contents, |flat|);
    aliases := MakeAliases(ext, data, ids);
  }

  /** The enriched batch: the answers for the chunks read back are matched with the rows by position. */
  method EnrichBatch(ext: External, sum: Summary, b: Batch, order: seq<nat>) returns (enriched: Batch)
    requires IsOrder(order, |b.parents|) && HasParents(b)
    ensures enriched == EnrichedBatch(ext, sum, b, order)
  {
    hide *;
    var groups, flat := ReadAndEnrich(ext, sum, b, order);
    AsManyAsRows(b, order);
    ghost var slots, prefixes := AllSlots(b.chunks, order), PrefixOf(flat);
    var chunks, aliases := MatchAndAsk(ext, b.chunks, groups, flat, SlotContents(b.chunks, slots));
    enriched := b.(enrichment := BatchCompleted, chunks := chunks, aliases := b.aliases + aliases);
    IsEnrichedBatch(ext, sum, b, order, enriched, prefixes, slots);
  }

  method MakeAliases(ext: External, data: seq<AliasData>, ids: map<ChunkResult, nat>) returns (rows: seq<AliasRow>)
    requires forall d :: d in data ==> d.chunk in ids
    ensures rows == RowsFor(ext, data, ids)
  {
    rows := [];
    for i := 0 to |data|
      invariant rows == RowsFor(ext, data, ids)[..i]
    {
      rows := rows + [AliasRow(ids[data[i].chunk], data[i].question, ext.countTokens(data[i].question), None)];
    }
    assert RowsFor(ext, data, ids)[..|data|] == RowsFor(ext, data, ids);
  }

  lemma StoredPrefixes(flat: seq<ChunkResult>, slots: seq<Slot>, chunks: seq<ChunkRow>)
    requires ReadBack(flat, slots, chunks)
    ensures Distinct(flat) && |flat| == |slots|
    ensures forall j :: 0 <= j < |slots| ==>
              && slots[j].chunk < |chunks| && SameText(flat[j], chunks[slots[j].chunk])
              && flat[j].at.0 == slots[j].group && flat[j].prefix == chunks[slots[j].chunk].prefix
  {
    hide SameText;
    assert forall j :: 0 <= j < |slots| ==> IsStored(flat[j], slots[j], chunks);
  }

  lemma SlotTexts(flat: seq<ChunkResult>, slots: seq<Slot>, chunks: seq<ChunkRow>)
    requires |flat| == |slots|
    requires forall j :: 0 <= j < |slots| ==> slots[j].chunk < |chunks| && SameText(flat[j], chunks[slots[j].chunk])
    ensures forall j :: 0 <= j < |slots| ==> flat[j].content == SlotContents(chunks, slots)[j]
  {
  }

  lemma ChildrenMatched(flat: seq<ChunkResult>, ids: map<ChunkResult, nat>, contents: seq<string>)
    requires |contents| == |flat| && forall j :: 0 <= j < |flat| ==> flat[j].content == contents[j]
    requires forall j :: 0 <= j < |flat| ==> flat[j] in ids && ids[flat[j]] == j
    ensures Matched(flat, ids, contents)
  {
  }

  lemma AsManyAsRows(b: Batch, order: seq<nat>)
    requires IsOrder(order, |b.parents|) && HasParents(b)
    ensures |AllSlots(b.chunks, order)| == |b.chunks|
  {
    hide AllSlots;
    SlotsAreAllChunks(b, order);
  }

  lemma IsEnrichedBatch(
    ext: External, sum: Summary, b: Batch, order: seq<nat>, enriched: Batch, prefixes: seq<string>, slots: seq<Slot>)
    requires IsOrder(order, |b.parents|) && slots == AllSlots(b.chunks, order)
    requires forall j :: 0 <= j < |slots| ==> slots[j].chunk < |b.chunks|
    requires prefixes == SlotPrefixes(ext, sum, ReadContents(b, order), b.chunks, slots)
    requires enriched == b.(enrichment := BatchCompleted, chunks := WithPrefixes(b.chunks, prefixes),
                            aliases := b.aliases + AliasesTo(ext, SlotContents(b.chunks, slots), |slots|))
    ensures enriched == EnrichedBatch(ext, sum, b, order)
  {
    hide AllSlots, AliasesTo, SlotPrefixes, WithPrefixes;
  }

  method FlattenChildren(groups: seq<LoadedGroup>) returns (children: seq<ChunkResult>)
    ensures children == AllChildren(groups)
  {
    children := [];
    for g := 0 to |groups|
      invariant children == Flatten(groups, g)
    {
      ghost var before := children;
      for c := 0 to |groups[g].children|
        invariant children == before + groups[g].children[..c]
      {
        children := children + [groups[g].children[c]];
      }
      assert groups[g].children[..|groups[g].children|] == groups[g].children;
    }
  }

  /** Writes each prefix to the row at the same position, and remembers which row each chunk was matched with. */
  method MatchRows(rows: seq<ChunkRow>, children: seq<ChunkResult>)
    returns (chunks: seq<ChunkRow>, ids: map<ChunkResult, nat>)
    requires Distinct(children) && |children| <= |rows|
    ensures chunks == WithPrefixes(rows, PrefixOf(children))
    ensures forall j :: 0 <= j < |children| ==> children[j] in ids && ids[children[j]] == j
  {
    chunks, ids := rows, map[];
    for j := 0 to |children|
      invariant |chunks| == |rows|
      invariant forall i :: 0 <= i < |rows| ==>
                chunks[i] == if i < j then rows[i].(prefix := children[i].prefix) else rows[i]
      invariant forall i :: 0 <= i < j ==> children[i] in ids && ids[children[i]] == i
    {
      chunks := chunks[j := chunks[j].(prefix := children[j].prefix)];
      ids := ids[children[j] := j];
    }
  }
}
