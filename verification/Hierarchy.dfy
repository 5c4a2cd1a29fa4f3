/** The hierarchical chunker: sentence windows become children, and children are packed into parents. */
module Hierarchy {
  import opened Sequences
  import opened Text
  import opened Packing
  import opened Windows

  datatype Chunk = Chunk(content: string, contextPrefix: string, tokens: nat, contentType: string)
  datatype Group = Group(parent: Chunk, children: seq<Chunk>)
  datatype Limits = Limits(parentMax: nat, childMax: nat, minChild: nat, overlap: nat)
  /** What all chunks of one call share. */
  datatype Style = Style(contentType: string, contextPrefix: string, count: string -> nat)

  const DEFAULT_LIMITS := Limits(1500, 300, 50, 30)

  function MakeChunk(text: string, style: Style): Chunk {
    Chunk(text, style.contextPrefix, style.count(text), style.contentType)
  }

  function MakeChunks(texts: seq<string>, style: Style): (chunks: seq<Chunk>)
    ensures |chunks| == |texts|
    ensures forall i :: 0 <= i < |texts| ==> chunks[i] == MakeChunk(texts[i], style)
  {
    Map(t => MakeChunk(t, style), texts)
  }

  function Contents(chunks: seq<Chunk>): (texts: seq<string>)
    ensures |texts| == |chunks|
    ensures forall i :: 0 <= i < |chunks| ==> texts[i] == chunks[i].content
  {
    Map((c: Chunk) => c.content, chunks)
  }

  function TokensOf(c: Chunk): nat {
    c.tokens
  }

  function WindowText(sentences: seq<string>, w: Window): string
    requires w.start <= w.end <= |sentences|
  {
    Join(" ", sentences[w.start..w.end])
  }

  predicate Inside(ws: seq<Window>, n: nat) {
    forall k :: 0 <= k < |ws| ==> ws[k].start <= ws[k].first <= ws[k].end <= n
  }

  function WindowTexts(sentences: seq<string>, ws: seq<Window>): (texts: seq<string>)
    requires Inside(ws, |sentences|)
    ensures |texts| == |ws|
    ensures forall k :: 0 <= k < |ws| ==> texts[k] == WindowText(sentences, ws[k])
  {
    seq(|ws|, k requires 0 <= k < |ws| => WindowText(sentences, ws[k]))
  }

  /** A last text that is too small is appended to the one before it. */
  function MergeTail(texts: seq<string>, count: string -> nat, minimum: nat): seq<string> {
    var n := |texts|;
    if n >= 2 && count(texts[n - 1]) < minimum
    then texts[..n - 2] + [texts[n - 2] + " " + texts[n - 1]]
    else texts
  }

  function ChildTexts(sentences: seq<string>, count: string -> nat, limits: Limits): seq<string> {
    var ws := AllWindows(sentences, count, limits.childMax, limits.overlap);
    WindowsInside(sentences, count, limits.childMax, limits.overlap);
    MergeTail(WindowTexts(sentences, ws), count, limits.minChild)
  }

  lemma WindowsInside(sentences: seq<string>, count: string -> nat, budget: nat, overlap: nat)
    ensures Inside(AllWindows(sentences, count, budget, overlap), |sentences|)
  {
    var ws := AllWindows(sentences, count, budget, overlap);
    WindowsAreWindowing(sentences, count, budget, overlap);
    assert forall k :: 0 <= k < |ws| ==> Filled(sentences, count, budget, ws[k]);
  }

  function Children(text: string, style: Style, limits: Limits): seq<Chunk> {
    var stripped := Strip(text);
    if stripped == "" then []
    else if style.count(stripped) <= limits.childMax then [MakeChunk(stripped, style)]
    else MakeChunks(ChildTexts(SplitSentences(stripped), style.count, limits), style)
  }

  function MakeGroup(children: seq<Chunk>, style: Style): Group {
    Group(MakeChunk(Join(" ", Contents(children)), style), children)
  }

  function MakeGroups(groups: seq<seq<Chunk>>, style: Style): (result: seq<Group>)
    ensures |result| == |groups|
    ensures forall g :: 0 <= g < |groups| ==> result[g] == MakeGroup(groups[g], style)
  {
    Map(g => MakeGroup(g, style), groups)
  }

  /** What the chunker returns: the children, packed greedily into parents. */
  function Chunked(text: string, style: Style, limits: Limits): seq<Group> {
    MakeGroups(Greedy(Children(text, style, limits), TokensOf, limits.parentMax), style)
  }

  // ------------------------------------------------------ the loops

  method BuildParentChildChunks(text: string, style: Style, limits: Limits) returns (groups: seq<Group>)
    ensures groups == Chunked(text, style, limits)
  {
    hide Greedy, ChildTexts, MakeGroup, Strip, SplitSentences;
    var stripped := Strip(text);
    if stripped == "" {
      NoChild(style, limits);
      return [];
    }
    var total := style.count(stripped);
    if total <= limits.childMax {
      var chunk := Chunk(stripped, style.contextPrefix, total, style.contentType);
      OneChild(chunk, style, limits);
      return [Group(chunk, [chunk])];
    }
    var sentences := SplitSentences(stripped);
    NeverEmpty(text);
    if sentences == [] {
      sentences := [stripped];
    }
    var children := AccumulateChildren(sentences, style, limits);
    var packed := Pack(children, TokensOf, limits.parentMax);
    groups := [];
    for g := 0 to |packed|
      invariant groups == MakeGroups(packed[..g], style)
    {
      var parentText := Join(" ", Contents(packed[g]));
      var parent := Chunk(parentText, style.contextPrefix, style.count(parentText), style.contentType);
      groups := groups + [Group(parent, packed[g])];
      assert MakeGroup(packed[g], style) == Group(parent, packed[g]) by {
        IsGroup(packed[g], parent, style);
      }
      assert packed[..g + 1] == packed[..g] + [packed[g]];
    }
    assert packed[..|packed|] == packed;
  }

  lemma IsGroup(children: seq<Chunk>, parent: Chunk, style: Style)
    requires parent == MakeChunk(Join(" ", Contents(children)), style)
    ensures MakeGroup(children, style) == Group(parent, children)
  {
  }

  lemma NoChild(style: Style, limits: Limits)
    ensures MakeGroups(Greedy([], TokensOf, limits.parentMax), style) == []
  {
  }

  lemma OneChild(chunk: Chunk, style: Style, limits: Limits)
    requires chunk == MakeChunk(chunk.content, style)
    ensures MakeGroups(Greedy([chunk], TokensOf, limits.parentMax), style) == [Group(chunk, [chunk])]
  {
    assert Grow([chunk], TokensOf, limits.parentMax, 1) == 1;
    assert [chunk][..1] == [chunk] && [chunk][1..] == [];
    assert Greedy([chunk], TokensOf, limits.parentMax) == [[chunk]];
    assert Contents([chunk]) == [chunk.content];
  }

  /** The fallback to a single sentence is never taken: stripped text that is not empty has a sentence. */
  lemma NeverEmpty(text: string)
    requires Strip(text) != ""
    ensures SplitSentences(Strip(text)) != []
  {
    NonSpaceStrip(text);
    SentencesConserve(Strip(text));
  }

  method AccumulateChildren(sentences: seq<string>, style: Style, limits: Limits) returns (children: seq<Chunk>)
    ensures children == MakeChunks(ChildTexts(sentences, style.count, limits), style)
  {
    hide Scanned, WindowTexts, MakeChunks, SuffixStart, NextStart, WindowsFrom, Cost;
    children := [];
    var current: seq<string> := [];
    var tokens := 0;
    ghost var ws: seq<Window>, start: nat, first: nat := [], 0, 0;
    ScanStart(sentences, style.count, limits);
    NoWindows(sentences, style);
    for i := 0 to |sentences|
      invariant Scanned(sentences, style.count, limits, ws, start, first, i)
      invariant start <= i && Inside(ws, |sentences|) && (current == [] ==> i == 0)
      invariant children == MakeChunks(WindowTexts(sentences, ws), style)
      invariant current == sentences[start..i] && tokens == Cost(current, style.count)
    {
      var sentence := sentences[i];
      ScanStep(sentences, style.count, limits, ws, start, first, i);
      if tokens + style.count(sentence) > limits.childMax && current != [] {
        children := children + [MakeChunk(Join(" ", current), style)];
        ScanBounds(sentences, style.count, limits, ws, start, first, i);
        AddWindow(sentences, ws, Window(start, first, i), style);
        ws := ws + [Window(start, first, i)];
        OverlapIsNextStart(sentences, style.count, limits.overlap, start, i);
        current, tokens := Overlap(current, style.count, limits.overlap);
        start, first := NextStart(sentences, style.count, limits.overlap, start, i), i;
      }
      CostOneMore(current, sentence, style.count);
      current := current + [sentence];
      tokens := tokens + style.count(sentence);
    }
    ScanBounds(sentences, style.count, limits, ws, start, first, |sentences|);
    ScanEnd(sentences, style.count, limits, ws, start, first);
    if current != [] {
      var text := Join(" ", current);
      AddWindow(sentences, ws, Window(start, first, |sentences|), style);
      children := AppendTail(children, WindowTexts(sentences, ws), text, style, limits);
    }
  }

  lemma CostOneMore(current: seq<string>, sentence: string, count: string -> nat)
    ensures Cost(current + [sentence], count) == Cost(current, count) + count(sentence)
  {
    assert (current + [sentence])[..|current|] == current;
  }

  lemma OverlapIsNextStart(sentences: seq<string>, count: string -> nat, overlap: nat, start: nat, i: nat)
    requires start <= i <= |sentences|
    ensures var current := sentences[start..i];
            current[SuffixStart(current, count, overlap, |current|)..] == sentences[NextStart(sentences, count, overlap, start, i)..i]
  {
  }

  lemma NoWindows(sentences: seq<string>, style: Style)
    ensures WindowTexts(sentences, []) == [] && MakeChunks([], style) == [] && Cost([], style.count) == 0
  {
  }

  lemma AddWindow(sentences: seq<string>, ws: seq<Window>, w: Window, style: Style)
    requires Inside(ws, |sentences|) && w.start <= w.first <= w.end <= |sentences|
    ensures Inside(ws + [w], |sentences|)
    ensures WindowTexts(sentences, ws + [w]) == WindowTexts(sentences, ws) + [WindowText(sentences, w)]
    ensures MakeChunks(WindowTexts(sentences, ws + [w]), style)
         == MakeChunks(WindowTexts(sentences, ws), style) + [MakeChunk(WindowText(sentences, w), style)]
  {
  }

  /** The last text becomes a child of its own, or is merged into the child before it. */
  method AppendTail(children: seq<Chunk>, ghost texts: seq<string>, text: string, style: Style, limits: Limits)
    returns (result: seq<Chunk>)
    requires children == MakeChunks(texts, style)
    ensures result == MakeChunks(MergeTail(texts + [text], style.count, limits.minChild), style)
  {
    var count := style.count(text);
    if count >= limits.minChild || children == [] {
      result := children + [Chunk(text, style.contextPrefix, count, style.contentType)];
    } else {
      var merged := children[|children| - 1].content + " " + text;
      result := children[..|children| - 1] + [MakeChunk(merged, style)];
    }
  }

  /** The longest suffix within the overlap budget, found by walking backwards. */
  method Overlap(current: seq<string>, count: string -> nat, overlap: nat) returns (kept: seq<string>, tokens: nat)
    ensures kept == current[SuffixStart(current, count, overlap, |current|)..]
    ensures tokens == Cost(kept, count)
  {
    kept, tokens := [], 0;
    var i := |current|;
    assert current[i..] == [];
    while i > 0
      invariant 0 <= i <= |current| && kept == current[i..] && tokens == Cost(kept, count)
      invariant SuffixStart(current, count, overlap, |current|) == SuffixStart(current, count, overlap, i)
    {
      var s := current[i - 1];
      SpanSplit(current, count, i - 1, i, |current|);
      SpanOfOne(current, count, i - 1);
      assert current[i - 1..|current|] == current[i - 1..] && current[i..|current|] == current[i..];
      if tokens + count(s) > overlap {
        break;
      }
      kept := [s] + kept;
      tokens := tokens + count(s);
      i := i - 1;
    }
  }

  /** `ws` are closed, and sentences[start..i] is the open window, whose first new sentence is at `first`. */
  ghost predicate Scanned(
    sentences: seq<string>, count: string -> nat, limits: Limits, ws: seq<Window>, start: nat, first: nat, i: nat)
  {
    && start <= first <= i <= |sentences|
    && Inside(ws, |sentences|)
    && (i == 0 ==> ws == [])
    && (i > 0 ==> first < i <= FirstWindow(sentences, count, limits.childMax, start, first).end)
    && ws + WindowsFrom(sentences, count, limits.childMax, limits.overlap, start, first)
         == AllWindows(sentences, count, limits.childMax, limits.overlap)
  }

  lemma ScanBounds(
    sentences: seq<string>, count: string -> nat, limits: Limits, ws: seq<Window>, start: nat, first: nat, i: nat)
    requires Scanned(sentences, count, limits, ws, start, first, i)
    ensures start <= first <= i <= |sentences| && Inside(ws, |sentences|) && (i == 0 ==> ws == [])
  {
  }

  lemma ScanStart(sentences: seq<string>, count: string -> nat, limits: Limits)
    ensures Scanned(sentences, count, limits, [], 0, 0, 0)
  {
  }

  lemma ScanStep(
    sentences: seq<string>, count: string -> nat, limits: Limits, ws: seq<Window>, start: nat, first: nat, i: nat)
    requires Scanned(sentences, count, limits, ws, start, first, i) && i < |sentences|
    ensures
      var over := Cost(sentences[start..i], count) + count(sentences[i]) > limits.childMax && i > 0;
      if over
      then Scanned(sentences, count, limits, ws + [Window(start, first, i)],
                   NextStart(sentences, count, limits.overlap, start, i), i, i + 1)
      else Scanned(sentences, count, limits, ws, start, first, i + 1)
  {
    hide FirstWindow, NextStart;
    if i > 0 {
      var w := FirstWindow(sentences, count, limits.childMax, start, first);
      FirstWindowFilled(sentences, count, limits.childMax, start, first);
      var over := Span(sentences, count, start, i) + count(sentences[i]) > limits.childMax;
      assert over <==> w.end == i;
      if over {
        var next := NextStart(sentences, count, limits.overlap, start, i);
        assert ws + ([w] + WindowsFrom(sentences, count, limits.childMax, limits.overlap, next, i))
            == (ws + [w]) + WindowsFrom(sentences, count, limits.childMax, limits.overlap, next, i);
      }
    }
  }

  lemma ScanEnd(
    sentences: seq<string>, count: string -> nat, limits: Limits, ws: seq<Window>, start: nat, first: nat)
    requires Scanned(sentences, count, limits, ws, start, first, |sentences|)
    ensures AllWindows(sentences, count, limits.childMax, limits.overlap)
         == if sentences == [] then ws else ws + [Window(start, first, |sentences|)]
  {
    if sentences != [] {
      assert FirstWindow(sentences, count, limits.childMax, start, first) == Window(start, first, |sentences|);
      assert WindowsFrom(sentences, count, limits.childMax, limits.overlap, start, first)
             == [Window(start, first, |sentences|)];
    }
  }

  // ------------------------------------------------------ what the chunks hold

  /** What the windows bring that is new: the sentences, each once and in order. */
  lemma WindowsConserve(sentences: seq<string>, count: string -> nat, limits: Limits)
    ensures
      var ws := AllWindows(sentences, count, limits.childMax, limits.overlap);
      Inside(ws, |sentences|) && FreshItems(sentences, ws) == sentences
  {
    var ws := AllWindows(sentences, count, limits.childMax, limits.overlap);
    WindowsInside(sentences, count, limits.childMax, limits.overlap);
    WindowsAreWindowing(sentences, count, limits.childMax, limits.overlap);
    WindowsReachEnd(sentences, count, limits);
    hide IsWindowing, AllWindows, FreshItems;
    FreshItemsAreItems(sentences, count, limits.childMax, limits.overlap, ws, |ws|);
    assert ws[..|ws|] == ws && sentences[..|sentences|] == sentences;
  }

  /** The text of a window is what it repeats from the previous window followed by what it brings. */
  lemma WindowTextParts(sentences: seq<string>, w: Window)
    requires w.start <= w.first <= w.end <= |sentences|
    ensures NonSpace(WindowText(sentences, w))
         == NonSpace(Concat(sentences[w.start..w.first])) + NonSpace(Concat(sentences[w.first..w.end]))
  {
    var repeated, added := sentences[w.start..w.first], sentences[w.first..w.end];
    assert sentences[w.start..w.end] == repeated + added;
    NonSpaceJoin(" ", repeated + added);
    ConcatAppend(repeated, added);
    NonSpaceAppend(Concat(repeated), Concat(added));
  }

  /** Merging the tail neither loses nor adds a non-space character, and keeps the order. */
  lemma MergeTailConserves(texts: seq<string>, count: string -> nat, minimum: nat)
    ensures NonSpace(Concat(MergeTail(texts, count, minimum))) == NonSpace(Concat(texts))
  {
    var n := |texts|;
    if n >= 2 && count(texts[n - 1]) < minimum {
      var a, b := texts[n - 2], texts[n - 1];
      assert texts == texts[..n - 2] + [a, b];
      ConcatAppend(texts[..n - 2], [a, b]);
      ConcatAppend(texts[..n - 2], [a + " " + b]);
      assert [a, b][1..] == [b];
      ConcatOne(b);
      ConcatOne(a + " " + b);
      NonSpaceAppend(Concat(texts[..n - 2]), a + b);
      NonSpaceAppend(Concat(texts[..n - 2]), a + " " + b);
      NonSpaceAppend(a, b);
      NonSpaceAppend(a + " ", b);
      NonSpaceAppend(a, " ");
    }
  }

  /** The non-space characters of one window: those repeated from the window before, and those it adds. */
  datatype Piece = Piece(repeated: string, added: string)

  function AddedOf(p: Piece): string {
    p.added
  }

  function HeldOf(p: Piece): string {
    p.repeated + p.added
  }

  function Added(pieces: seq<Piece>): string {
    Concat(Map(AddedOf, pieces))
  }

  function Held(pieces: seq<Piece>): string {
    Concat(Map(HeldOf, pieces))
  }

  function WindowPiece(sentences: seq<string>, w: Window): Piece
    requires w.start <= w.first <= w.end <= |sentences|
  {
    Piece(NonSpace(Concat(sentences[w.start..w.first])), NonSpace(Concat(sentences[w.first..w.end])))
  }

  function WindowPieces(sentences: seq<string>, ws: seq<Window>): (pieces: seq<Piece>)
    requires Inside(ws, |sentences|)
    ensures |pieces| == |ws| && forall k :: 0 <= k < |ws| ==> pieces[k] == WindowPiece(sentences, ws[k])
  {
    seq(|ws|, k requires 0 <= k < |ws| => WindowPiece(sentences, ws[k]))
  }

  /** One piece per text, and two for the last one if the tail was merged into it. */
  function MergePieces(pieces: seq<Piece>, texts: seq<string>, count: string -> nat, minimum: nat): seq<seq<Piece>>
    requires |pieces| == |texts|
  {
    var n := |texts|;
    var each := Map(p => [p], pieces);
    if n >= 2 && count(texts[n - 1]) < minimum then each[..n - 2] + [[pieces[n - 2], pieces[n - 1]]] else each
  }

  /** The pieces of each child of a text. */
  function ChildPieces(text: string, count: string -> nat, limits: Limits): seq<seq<Piece>> {
    var stripped := Strip(text);
    if stripped == "" then []
    else if count(stripped) <= limits.childMax then [[Piece("", NonSpace(stripped))]]
    else
      var sentences := SplitSentences(stripped);
      var ws := AllWindows(sentences, count, limits.childMax, limits.overlap);
      WindowsInside(sentences, count, limits.childMax, limits.overlap);
      MergePieces(WindowPieces(sentences, ws), WindowTexts(sentences, ws), count, limits.minChild)
  }

  predicate IsSuffix(a: string, b: string) {
    |a| <= |b| && b[|b| - |a|..] == a
  }

  /** What a piece repeats is the end of what the pieces before it added. */
  predicate RepeatsEnd(pieces: seq<Piece>) {
    forall k :: 0 <= k < |pieces| ==> IsSuffix(pieces[k].repeated, Added(pieces[..k]))
  }

  /**
   * Each child holds its pieces and nothing else but space; what the pieces add is the text, in order
   * and each character once; and what they repeat had just been added.
   */
  predicate Covers(children: seq<Chunk>, pieces: seq<seq<Piece>>, text: string) {
    && |children| == |pieces|
    && (forall c :: 0 <= c < |children| ==> pieces[c] != [] && NonSpace(children[c].content) == Held(pieces[c]))
    && Added(Concat(pieces)) == NonSpace(text)
    && RepeatsEnd(Concat(pieces))
  }

  lemma AddedAppend(a: seq<Piece>, b: seq<Piece>)
    ensures Added(a + b) == Added(a) + Added(b) && Held(a + b) == Held(a) + Held(b)
  {
    assert Map(AddedOf, a + b) == Map(AddedOf, a) + Map(AddedOf, b);
    assert Map(HeldOf, a + b) == Map(HeldOf, a) + Map(HeldOf, b);
    ConcatAppend(Map(AddedOf, a), Map(AddedOf, b));
    ConcatAppend(Map(HeldOf, a), Map(HeldOf, b));
  }

  lemma AddedOne(p: Piece)
    ensures Added([p]) == p.added && Held([p]) == p.repeated + p.added && Added([]) == ""
  {
    assert Map(AddedOf, [p]) == [p.added] && Map(HeldOf, [p]) == [HeldOf(p)];
    ConcatOne(p.added);
    ConcatOne(HeldOf(p));
  }

  lemma {:induction false} ConcatSingles<T>(items: seq<T>)
    ensures Concat(Map(p => [p], items)) == items
  {
    if items != [] {
      ConcatSingles(items[1..]);
      assert Map(p => [p], items)[1..] == Map(p => [p], items[1..]);
    }
  }

  lemma MergePiecesKeep(pieces: seq<Piece>, texts: seq<string>, count: string -> nat, minimum: nat)
    requires |pieces| == |texts|
    ensures Concat(MergePieces(pieces, texts, count, minimum)) == pieces
  {
    var n := |texts|;
    var each := Map(p => [p], pieces);
    ConcatSingles(pieces);
    if n >= 2 && count(texts[n - 1]) < minimum {
      var last := [pieces[n - 2], pieces[n - 1]];
      assert each == each[..n - 2] + Map(p => [p], last);
      ConcatAppend(each[..n - 2], Map(p => [p], last));
      ConcatAppend(each[..n - 2], [last]);
      ConcatSingles(last);
      ConcatOne(last);
    }
  }

  function EndOf(ws: seq<Window>, k: nat): nat
    requires k <= |ws|
  {
    if k == 0 then 0 else ws[k - 1].end
  }

  lemma OneMoreAdds(sentences: seq<string>, front: seq<Piece>, w: Window)
    requires w.start <= w.first <= w.end <= |sentences|
    requires Added(front) == NonSpace(Concat(sentences[..w.first]))
    ensures Added(front + [WindowPiece(sentences, w)]) == NonSpace(Concat(sentences[..w.end]))
    ensures IsSuffix(WindowPiece(sentences, w).repeated, Added(front))
  {
    hide Added, NonSpace, Concat;
    AddedAppend(front, [WindowPiece(sentences, w)]);
    AddedOne(WindowPiece(sentences, w));
    SentencesApart(sentences, w.first, w.end);
    SentencesApart(sentences[..w.first], w.start, w.first);
    assert sentences[..w.first][..w.start] == sentences[..w.start];
    assert sentences[..w.first][w.start..w.first] == sentences[w.start..w.first];
    assert sentences[..w.first][..w.first] == sentences[..w.first];
  }

  lemma SentencesApart(sentences: seq<string>, a: nat, b: nat)
    requires a <= b <= |sentences|
    ensures NonSpace(Concat(sentences[..b])) == NonSpace(Concat(sentences[..a])) + NonSpace(Concat(sentences[a..b]))
  {
    hide NonSpace;
    assert sentences[..b] == sentences[..a] + sentences[a..b];
    ConcatAppend(sentences[..a], sentences[a..b]);
    NonSpaceAppend(Concat(sentences[..a]), Concat(sentences[a..b]));
  }

  /** The first k windows add the sentences up to the end of the last of them. */
  lemma {:induction false} WindowsAdd(
    sentences: seq<string>, count: string -> nat, limits: Limits, ws: seq<Window>, k: nat)
    requires IsWindowing(ws, sentences, count, limits.childMax, limits.overlap) && k <= |ws|
    requires Inside(ws, |sentences|)
    ensures EndOf(ws, k) <= |sentences|
    ensures Added(WindowPieces(sentences, ws)[..k]) == NonSpace(Concat(sentences[..EndOf(ws, k)]))
    ensures forall j :: 0 <= j < k ==>
              IsSuffix(WindowPieces(sentences, ws)[j].repeated, Added(WindowPieces(sentences, ws)[..j]))
  {
    hide *;
    var pieces := WindowPieces(sentences, ws);
    InsideAt(sentences, ws);
    if k == 0 {
      NothingAdded();
      assert pieces[..0] == [] && sentences[..0] == [];
    } else {
      WindowsAdd(sentences, count, limits, ws, k - 1);
      Seam(sentences, count, limits.childMax, limits.overlap, ws, k - 1);
      EndIs(ws, k);
      assert pieces[..k] == pieces[..k - 1] + [pieces[k - 1]];
      OneMoreAdds(sentences, pieces[..k - 1], ws[k - 1]);
    }
  }

  lemma EndIs(ws: seq<Window>, k: nat)
    requires 0 < k <= |ws|
    ensures EndOf(ws, k) == ws[k - 1].end && EndOf(ws, k - 1) == if k == 1 then 0 else ws[k - 2].end
  {
  }

  lemma InsideAt(sentences: seq<string>, ws: seq<Window>)
    requires Inside(ws, |sentences|)
    ensures EndOf(ws, 0) == 0
    ensures forall k :: 0 <= k < |ws| ==> ws[k].start <= ws[k].first <= ws[k].end <= |sentences|
  {
  }

  lemma NothingAdded()
    ensures Added([]) == NonSpace(Concat([])) == ""
  {
    assert Map(AddedOf, []) == [];
  }

  lemma WindowsRepeat(sentences: seq<string>, count: string -> nat, limits: Limits)
    ensures
      var ws := AllWindows(sentences, count, limits.childMax, limits.overlap);
      && Inside(ws, |sentences|)
      && RepeatsEnd(WindowPieces(sentences, ws))
      && Added(WindowPieces(sentences, ws)) == NonSpace(Concat(sentences))
  {
    hide *;
    var ws := AllWindows(sentences, count, limits.childMax, limits.overlap);
    WindowsInside(sentences, count, limits.childMax, limits.overlap);
    WindowsAreWindowing(sentences, count, limits.childMax, limits.overlap);
    WindowsAdd(sentences, count, limits, ws, |ws|);
    WindowsReachEnd(sentences, count, limits);
    var pieces := WindowPieces(sentences, ws);
    AllRepeat(pieces);
    assert pieces[..|ws|] == pieces && sentences[..|sentences|] == sentences;
  }

  lemma AllRepeat(pieces: seq<Piece>)
    requires forall k :: 0 <= k < |pieces| ==> IsSuffix(pieces[k].repeated, Added(pieces[..k]))
    ensures RepeatsEnd(pieces)
  {
    hide IsSuffix, Added;
  }

  lemma WindowsReachEnd(sentences: seq<string>, count: string -> nat, limits: Limits)
    ensures var ws := AllWindows(sentences, count, limits.childMax, limits.overlap);
            EndOf(ws, |ws|) == |sentences|
  {
    WindowsAreWindowing(sentences, count, limits.childMax, limits.overlap);
  }

  /** Each text after the merge holds its pieces. */
  lemma MergedHold(sentences: seq<string>, ws: seq<Window>, count: string -> nat, minimum: nat)
    requires Inside(ws, |sentences|)
    ensures
      var texts := MergeTail(WindowTexts(sentences, ws), count, minimum);
      var pieces := MergePieces(WindowPieces(sentences, ws), WindowTexts(sentences, ws), count, minimum);
      && |texts| == |pieces|
      && forall c :: 0 <= c < |texts| ==> pieces[c] != [] && NonSpace(texts[c]) == Held(pieces[c])
  {
    hide NonSpace, WindowText, WindowPiece, Held, Concat;
    var before, parts := WindowTexts(sentences, ws), WindowPieces(sentences, ws);
    var n := |ws|;
    forall k | 0 <= k < n ensures NonSpace(before[k]) == Held([parts[k]]) {
      WindowHolds(sentences, ws[k]);
    }
    if n >= 2 && count(before[n - 1]) < minimum {
      NonSpaceAppend(before[n - 2] + " ", before[n - 1]);
      NonSpaceAppend(before[n - 2], " ");
      TwoBreaks();
      AddedAppend([parts[n - 2]], [parts[n - 1]]);
      assert [parts[n - 2]] + [parts[n - 1]] == [parts[n - 2], parts[n - 1]];
    }
  }

  lemma WindowHolds(sentences: seq<string>, w: Window)
    requires w.start <= w.first <= w.end <= |sentences|
    ensures NonSpace(WindowText(sentences, w)) == Held([WindowPiece(sentences, w)])
  {
    hide NonSpace, WindowText;
    WindowTextParts(sentences, w);
    AddedOne(WindowPiece(sentences, w));
  }

  lemma TwoBreaks()
    ensures NonSpace("") == NonSpace(" ") == NonSpace("\n") == NonSpace("\n\n") == ""
  {
    assert "\n\n"[1..] == "\n" && "\n"[1..] == "" && " "[1..] == "";
  }

  /**
   * From a text to its children: each child holds the text of its windows, first what repeats the
   * window before and then what is new; the new parts are the non-space characters of the text, in
   * order. A text within the budget is a single child, stripped; only a blank text has no child.
   */
  lemma ChildrenConserve(input: string, style: Style, limits: Limits)
    ensures
      var children := Children(input, style, limits);
      && Covers(children, ChildPieces(input, style.count, limits), input)
      && (children == [] <==> NonSpace(input) == "")
      && (Strip(input) != "" && style.count(Strip(input)) <= limits.childMax ==> Contents(children) == [Strip(input)])
  {
    hide NonSpace, Strip, SplitSentences, MergeTail, MergePieces, Held, Added, AllWindows, RepeatsEnd;
    var text := Strip(input);
    NonSpaceStrip(input);
    if text == "" {
      AddedOne(Piece("", ""));
      NothingRepeats(Piece("", ""));
    } else if style.count(text) <= limits.childMax {
      var p := Piece("", NonSpace(text));
      AddedOne(p);
      NothingRepeats(p);
      ConcatOne([p]);
    } else {
      var sentences := SplitSentences(text);
      var ws := AllWindows(sentences, style.count, limits.childMax, limits.overlap);
      SentencesConserve(text);
      WindowsRepeat(sentences, style.count, limits);
      MergedHold(sentences, ws, style.count, limits.minChild);
      MergePiecesKeep(WindowPieces(sentences, ws), WindowTexts(sentences, ws), style.count, limits.minChild);
      TailKeepsOne(WindowTexts(sentences, ws), style.count, limits.minChild);
      SomeWindow(sentences, style.count, limits);
    }
  }

  lemma SomeWindow(sentences: seq<string>, count: string -> nat, limits: Limits)
    requires sentences != []
    ensures AllWindows(sentences, count, limits.childMax, limits.overlap) != []
  {
  }

  lemma NothingRepeats(p: Piece)
    requires p.repeated == ""
    ensures RepeatsEnd([p]) && RepeatsEnd([])
  {
  }

  lemma CoversAppend(a: seq<Chunk>, pieces: seq<seq<Piece>>, s: string, b: seq<Chunk>, more: seq<seq<Piece>>, t: string)
    requires Covers(a, pieces, s) && Covers(b, more, t)
    ensures Covers(a + b, pieces + more, s + t)
  {
    hide NonSpace, Added, Held, IsSuffix, Concat;
    ConcatAppend(pieces, more);
    AddedAppend(Concat(pieces), Concat(more));
    NonSpaceAppend(s, t);
    RepeatsAppend(Concat(pieces), Concat(more));
  }

  lemma RepeatsAppend(a: seq<Piece>, b: seq<Piece>)
    requires RepeatsEnd(a) && RepeatsEnd(b)
    ensures RepeatsEnd(a + b)
  {
    hide Added;
    forall k | 0 <= k < |a + b| ensures IsSuffix((a + b)[k].repeated, Added((a + b)[..k])) {
      if k < |a| {
        assert (a + b)[..k] == a[..k];
      } else {
        assert (a + b)[..k] == a + b[..k - |a|];
        AddedAppend(a, b[..k - |a|]);
        assert IsSuffix(b[k - |a|].repeated, Added(b[..k - |a|]));
      }
    }
  }

  function ChildrenOf(g: Group): seq<Chunk> {
    g.children
  }

  /** All the children that the chunker returns. */
  function AllChildren(groups: seq<Group>): seq<Chunk> {
    Concat(Map(ChildrenOf, groups))
  }

  /** Each parent has children and holds their text. */
  predicate ParentsHoldChildren(groups: seq<Group>) {
    forall g :: 0 <= g < |groups| ==>
      && groups[g].children != []
      && groups[g].parent.content == Join(" ", Contents(groups[g].children))
  }

  lemma GroupsHold(text: string, style: Style, limits: Limits)
    ensures var groups := Chunked(text, style, limits);
            AllChildren(groups) == Children(text, style, limits) && ParentsHoldChildren(groups)
  {
    hide Children, Greedy;
    var packed := Greedy(Children(text, style, limits), TokensOf, limits.parentMax);
    GreedyIsPacking(Children(text, style, limits), TokensOf, limits.parentMax);
    assert Map(ChildrenOf, Chunked(text, style, limits)) == packed;
  }

  /**
   * From a plain-text file to what the chunker returns: the children of all groups hold the windows'
   * pieces, whose new parts are the non-space characters of the file, in order and once; each parent
   * holds the text of its children; and every chunk counts its own tokens and names the file.
   */
  lemma TextConserved(content: string, filename: string, count: string -> nat)
    ensures
      var style := Style("text", "File: " + filename, count);
      var groups := Chunked(Normalize(content), style, DEFAULT_LIMITS);
      && Covers(AllChildren(groups), ChildPieces(Normalize(content), count, DEFAULT_LIMITS), content)
      && ParentsHoldChildren(groups)
      && (forall g :: g in groups ==> IsMade(g.parent, style) && forall c :: c in g.children ==> IsMade(c, style))
      && (groups == [] <==> NonSpace(content) == "")
      && var text := Strip(Normalize(content));
         (text != "" && count(text) <= DEFAULT_LIMITS.childMax ==> Contents(AllChildren(groups)) == [text])
  {
    hide NonSpace, Children, ChildPieces, Normalize, Chunked, Added, RepeatsEnd, ParentsHoldChildren, IsMade;
    var style := Style("text", "File: " + filename, count);
    ChunksAreMade(Normalize(content), style, DEFAULT_LIMITS);
    NormalizeConserves(content);
    ChildrenConserve(Normalize(content), style, DEFAULT_LIMITS);
    GroupsHold(Normalize(content), style, DEFAULT_LIMITS);
    NoGroups(Chunked(Normalize(content), style, DEFAULT_LIMITS));
  }

  lemma NoGroups(groups: seq<Group>)
    requires ParentsHoldChildren(groups)
    ensures AllChildren(groups) == [] <==> groups == []
  {
  }

  lemma TailKeepsOne(texts: seq<string>, count: string -> nat, minimum: nat)
    ensures MergeTail(texts, count, minimum) == [] <==> texts == []
  {
  }

  /**
   * The children of a text beyond the budget, word for word: the sentences of each window joined by
   * spaces, and the last two joined by a space if the last counts less than the minimum.
   */
  lemma ChildrenAreWindows(text: string, style: Style, limits: Limits)
    requires Strip(text) != "" && style.count(Strip(text)) > limits.childMax
    ensures
      var sentences := SplitSentences(Strip(text));
      var ws := AllWindows(sentences, style.count, limits.childMax, limits.overlap);
      var children := Children(text, style, limits);
      && Inside(ws, |sentences|) && IsWindowing(ws, sentences, style.count, limits.childMax, limits.overlap)
      && var last := |ws| - 1;
         var merged := last >= 1 && style.count(Join(" ", sentences[ws[last].start..ws[last].end])) < limits.minChild;
         && |children| == (if merged then last else |ws|)
         && forall c :: 0 <= c < |children| ==>
              children[c].content
                == Join(" ", sentences[ws[c].start..ws[c].end])
                   + if merged && c == last - 1 then " " + Join(" ", sentences[ws[last].start..ws[last].end]) else ""
  {
    hide IsWindowing, AllWindows, Join, Strip, SplitSentences;
    var sentences := SplitSentences(Strip(text));
    WindowsInside(sentences, style.count, limits.childMax, limits.overlap);
    WindowsAreWindowing(sentences, style.count, limits.childMax, limits.overlap);
  }

  /** The chunk counts its own content, and has the prefix and the type of its call. */
  predicate IsMade(c: Chunk, style: Style) {
    && c.tokens == style.count(c.content)
    && c.contextPrefix == style.contextPrefix && c.contentType == style.contentType
  }

  lemma InConcat<T>(parts: seq<seq<T>>, p: nat, x: T)
    requires p < |parts| && x in parts[p]
    ensures x in Concat(parts)
  {
    if p > 0 {
      InConcat(parts[1..], p - 1, x);
    }
  }

  /** Every parent and every child that the chunker returns states the tokens of its own content. */
  lemma ChunksAreMade(text: string, style: Style, limits: Limits)
    ensures forall g :: g in Chunked(text, style, limits) ==>
              IsMade(g.parent, style) && forall c :: c in g.children ==> IsMade(c, style)
  {
    hide Greedy, ChildTexts;
    var groups := Chunked(text, style, limits);
    GroupsHold(text, style, limits);
    assert forall c :: c in Children(text, style, limits) ==> IsMade(c, style);
    forall g, c | g in groups && c in g.children ensures IsMade(c, style) {
      var p :| 0 <= p < |groups| && groups[p] == g;
      assert Map(ChildrenOf, groups)[p] == g.children;
      InConcat(Map(ChildrenOf, groups), p, c);
    }
  }

  function TokenCounts(children: seq<Chunk>, count: string -> nat): (counts: seq<nat>)
    ensures |counts| == |children| && forall c :: 0 <= c < |children| ==> counts[c] == count(children[c].content)
  {
    Map((c: Chunk) => count(c.content), children)
  }

  /** A group that one parent may hold: within the cap by the tokens of its texts, or a single child. */
  predicate FitsParent(children: seq<Chunk>, count: string -> nat, limits: Limits) {
    |children| == 1 || (children != [] && Total(TokenCounts(children, count)) <= limits.parentMax)
  }

  lemma FitsByTokens(children: seq<Chunk>, style: Style, limits: Limits)
    requires forall c :: c in children ==> IsMade(c, style)
    ensures FitsParent(children, style.count, limits) <==> Fits(children, TokensOf, limits.parentMax)
  {
    assert forall c :: 0 <= c < |children| ==> children[c] in children;
    CostIsTotal(children, TokensOf, TokenCounts(children, style.count));
  }

  /**
   * The parents hold the children in order, each within the cap by the tokens of its children's texts
   * or with a single child, and no such division of the children has fewer parents.
   */
  lemma ParentsPackChildren(text: string, style: Style, limits: Limits, other: seq<seq<Chunk>>)
    requires Concat(other) == Children(text, style, limits)
    requires forall p :: 0 <= p < |other| ==> FitsParent(other[p], style.count, limits)
    ensures
      var groups := Chunked(text, style, limits);
      && |groups| <= |other|
      && AllChildren(groups) == Children(text, style, limits)
      && (forall g :: g in groups ==> FitsParent(g.children, style.count, limits))
  {
    hide Children, FitsParent, IsMade, Fits;
    var children := Children(text, style, limits);
    var packed := Greedy(children, TokensOf, limits.parentMax);
    ChildrenAreMade(text, style, limits);
    forall p | 0 <= p < |other| ensures Fits(other[p], TokensOf, limits.parentMax) {
      forall c | c in other[p] ensures IsMade(c, style) {
        InConcat(other, p, c);
      }
      FitsByTokens(other[p], style, limits);
    }
    GreedyIsPacking(children, TokensOf, limits.parentMax);
    GreedyIsOptimal(children, TokensOf, limits.parentMax, other);
    GroupsHold(text, style, limits);
    ChunksAreMade(text, style, limits);
    var groups := Chunked(text, style, limits);
    forall g | g in groups ensures FitsParent(g.children, style.count, limits) {
      var p :| 0 <= p < |groups| && groups[p] == g;
      assert g.children == packed[p];
      assert forall c :: c in g.children ==> IsMade(c, style);
      FitsByTokens(g.children, style, limits);
    }
  }

  lemma ChildrenAreMade(text: string, style: Style, limits: Limits)
    ensures forall c :: c in Children(text, style, limits) ==> IsMade(c, style)
  {
    hide ChildTexts;
  }

  /** `TextChunker.chunk` */
  method ChunkText(content: string, filename: string, count: string -> nat) returns (groups: seq<Group>)
    ensures groups == Chunked(Normalize(content), Style("text", "File: " + filename, count), DEFAULT_LIMITS)
  {
    groups := BuildParentChildChunks(Normalize(content), Style("text", "File: " + filename, count), DEFAULT_LIMITS);
  }
}
