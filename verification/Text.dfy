/** Whitespace, stripping and splitting of text, as Python's `str` methods and the sentence pattern do it. */
module Text {
  import opened Sequences

  /** What `str.strip` strips and what the pattern class `\s` matches. */
  predicate IsSpace(c: char) {
    || '\U{9}' <= c <= '\U{d}' || '\U{1c}' <= c <= ' ' || c == '\U{85}' || c == '\U{a0}' || c == '\U{1680}'
    || '\U{2000}' <= c <= '\U{200a}' || c == '\U{2028}' || c == '\U{2029}' || c == '\U{202f}' || c == '\U{205f}'
    || c == '\U{3000}'
  }

  predicate IsUpper(c: char) {
    'A' <= c <= 'Z'
  }

  predicate IsStop(c: char) {
    c == '.' || c == '!' || c == '?'
  }

  function StripLeft(s: string): string {
    if s != "" && IsSpace(s[0]) then StripLeft(s[1..]) else s
  }

  function StripRight(s: string): string {
    if s != "" && IsSpace(s[|s| - 1]) then StripRight(s[..|s| - 1]) else s
  }

  function Strip(s: string): string {
    StripRight(StripLeft(s))
  }

  /** The non-space characters, in order. */
  function NonSpace(s: string): string {
    if s == "" then ""
    else if IsSpace(s[0]) then NonSpace(s[1..])
    else [s[0]] + NonSpace(s[1..])
  }

  /** `[p.strip() for p in parts if p.strip()]` */
  function StripAll(parts: seq<string>): seq<string> {
    if parts == [] then []
    else (if Strip(parts[0]) == "" then [] else [Strip(parts[0])]) + StripAll(parts[1..])
  }

  /** Where the run of spaces from i ends. */
  function RunEnd(s: string, i: nat): (j: nat)
    requires i <= |s|
    ensures i <= j <= |s|
    decreases |s| - i
  {
    if i < |s| && IsSpace(s[i]) then RunEnd(s, i + 1) else i
  }

  /** The sentence pattern matches at i: spaces after a stop and before a capital letter. */
  predicate BoundaryAt(s: string, i: nat) {
    0 < i < |s| && IsStop(s[i - 1]) && IsSpace(s[i]) && RunEnd(s, i) < |s| && IsUpper(s[RunEnd(s, i)])
  }

  /** The pieces of s[start..] between the boundaries at or after i. */
  function Pieces(s: string, start: nat, i: nat): seq<string>
    requires start <= i <= |s|
    decreases |s| - i
  {
    if i == |s| then [s[start..]]
    else if BoundaryAt(s, i) then
      var j := RunEnd(s, i + 1);
      [s[start..i]] + Pieces(s, j, j)
    else Pieces(s, start, i + 1)
  }

  function SplitSentences(s: string): seq<string> {
    StripAll(Pieces(s, 0, 0))
  }

  /** `s[start..].split(sep)` once no separator starts between `start` and i. */
  function SplitFrom(s: string, sep: string, start: nat, i: nat): (parts: seq<string>)
    requires sep != "" && start <= i <= |s|
    ensures parts != []
    decreases |s| - i
  {
    if |s| < i + |sep| then [s[start..]]
    else if s[i..i + |sep|] == sep then [s[start..i]] + SplitFrom(s, sep, i + |sep|, i + |sep|)
    else SplitFrom(s, sep, start, i + 1)
  }

  function Split(s: string, sep: string): seq<string>
    requires sep != ""
  {
    SplitFrom(s, sep, 0, 0)
  }

  /** The text that the plain-text chunker hands on: its paragraphs stripped and joined. */
  function Normalize(content: string): string {
    Join("\n\n", StripAll(Split(content, "\n\n")))
  }

  // ------------------------------------------------ nothing is lost

  lemma {:induction false} NonSpaceAppend(a: string, b: string)
    ensures NonSpace(a + b) == NonSpace(a) + NonSpace(b)
  {
    if a == "" {
      assert a + b == b;
    } else {
      assert (a + b)[1..] == a[1..] + b;
      NonSpaceAppend(a[1..], b);
    }
  }

  lemma {:induction false} NonSpaceStripLeft(s: string)
    ensures NonSpace(StripLeft(s)) == NonSpace(s)
    ensures StripLeft(s) != "" ==> !IsSpace(StripLeft(s)[0])
  {
    if s != "" && IsSpace(s[0]) {
      NonSpaceStripLeft(s[1..]);
    }
  }

  lemma {:induction false} NonSpaceStripRight(s: string)
    ensures NonSpace(StripRight(s)) == NonSpace(s)
    ensures s != "" && !IsSpace(s[0]) ==> StripRight(s) != "" && StripRight(s)[0] == s[0]
  {
    if s != "" && IsSpace(s[|s| - 1]) {
      var front := s[..|s| - 1];
      NonSpaceStripRight(front);
      assert s == front + [s[|s| - 1]];
      NonSpaceAppend(front, [s[|s| - 1]]);
    }
  }

  /** Stripping takes only spaces, and leaves nothing only where there is nothing else. */
  lemma NonSpaceStrip(s: string)
    ensures NonSpace(Strip(s)) == NonSpace(s)
    ensures Strip(s) == "" <==> NonSpace(s) == ""
  {
    NonSpaceStripLeft(s);
    NonSpaceStripRight(StripLeft(s));
  }

  lemma {:induction false} StripLeftIs(s: string) returns (i: nat)
    ensures i <= |s| && StripLeft(s) == s[i..] && (forall k :: 0 <= k < i ==> IsSpace(s[k]))
    ensures i < |s| ==> !IsSpace(s[i])
  {
    if s == "" || !IsSpace(s[0]) {
      i := 0;
    } else {
      var j := StripLeftIs(s[1..]);
      i := j + 1;
    }
  }

  lemma {:induction false} StripRightIs(s: string) returns (j: nat)
    ensures j <= |s| && StripRight(s) == s[..j] && (forall k :: j <= k < |s| ==> IsSpace(s[k]))
    ensures j > 0 ==> !IsSpace(s[j - 1])
  {
    if s == "" || !IsSpace(s[|s| - 1]) {
      j := |s|;
      assert s[..|s|] == s;
    } else {
      j := StripRightIs(s[..|s| - 1]);
      assert s[..|s| - 1][..j] == s[..j];
    }
  }

  /** Stripping cuts off the spaces at both ends, and only these. */
  lemma StripIs(s: string) returns (i: nat, j: nat)
    ensures i <= j <= |s| && Strip(s) == s[i..j]
    ensures forall k :: 0 <= k < |s| && !(i <= k < j) ==> IsSpace(s[k])
    ensures i < j ==> !IsSpace(s[i]) && !IsSpace(s[j - 1])
  {
    i := StripLeftIs(s);
    var n := StripRightIs(s[i..]);
    j := i + n;
    assert s[i..][..n] == s[i..j];
    forall k | j <= k < |s| ensures IsSpace(s[k]) {
      assert s[i..][k - i] == s[k];
    }
    if i < j {
      assert s[i..][n - 1] == s[j - 1];
    }
  }

  lemma {:induction false} NonSpaceStripAll(parts: seq<string>)
    ensures NonSpace(Concat(StripAll(parts))) == NonSpace(Concat(parts))
  {
    if parts != [] {
      var head := if Strip(parts[0]) == "" then [] else [Strip(parts[0])];
      NonSpaceStripAll(parts[1..]);
      NonSpaceStrip(parts[0]);
      ConcatAppend(head, StripAll(parts[1..]));
      ConcatOne(Strip(parts[0]));
      NonSpaceAppend(Concat(head), Concat(StripAll(parts[1..])));
      NonSpaceAppend(parts[0], Concat(parts[1..]));
    }
  }

  lemma {:induction false} RunIsSpace(s: string, i: nat)
    requires i <= |s|
    ensures NonSpace(s[i..RunEnd(s, i)]) == ""
    ensures forall j :: i <= j < RunEnd(s, i) ==> IsSpace(s[j])
    ensures RunEnd(s, i) < |s| ==> !IsSpace(s[RunEnd(s, i)])
    decreases |s| - i
  {
    if i < |s| && IsSpace(s[i]) {
      RunIsSpace(s, i + 1);
      assert s[i..RunEnd(s, i)][1..] == s[i + 1..RunEnd(s, i + 1)];
    } else {
      assert s[i..i] == "";
    }
  }

  lemma {:induction false} NonSpacePieces(s: string, start: nat, i: nat)
    requires start <= i <= |s|
    ensures NonSpace(Concat(Pieces(s, start, i))) == NonSpace(s[start..])
    decreases |s| - i
  {
    hide NonSpace, IsSpace, IsStop, IsUpper;
    if i == |s| {
      ConcatOne(s[start..]);
    } else if BoundaryAt(s, i) {
      var j := RunEnd(s, i + 1);
      NonSpacePieces(s, j, j);
      RunIsSpace(s, i);
      assert s[start..] == s[start..i] + s[i..j] + s[j..];
      NonSpaceAppend(s[start..i] + s[i..j], s[j..]);
      NonSpaceAppend(s[start..i], s[i..j]);
      NonSpaceAppend(s[start..i], Concat(Pieces(s, j, j)));
    } else {
      NonSpacePieces(s, start, i + 1);
    }
  }

  /** The sentences hold the non-space characters of the text, and there are none only if it has none. */
  lemma SentencesConserve(s: string)
    ensures NonSpace(Concat(SplitSentences(s))) == NonSpace(s)
    ensures SplitSentences(s) == [] <==> NonSpace(s) == ""
  {
    NonSpacePieces(s, 0, 0);
    assert s[0..] == s;
    NonSpaceStripAll(Pieces(s, 0, 0));
    if SplitSentences(s) != [] {
      StripAllNonSpace(Pieces(s, 0, 0));
      var first := SplitSentences(s)[0];
      assert first in SplitSentences(s);
      NonSpaceAppend(first, Concat(SplitSentences(s)[1..]));
    }
  }

  lemma {:induction false} StripAllNonSpace(parts: seq<string>)
    ensures forall p :: p in StripAll(parts) ==> NonSpace(p) != ""
  {
    if parts != [] {
      StripAllNonSpace(parts[1..]);
      NonSpaceStrip(parts[0]);
    }
  }

  lemma UpperIsNotSpace(c: char)
    ensures IsUpper(c) ==> !IsSpace(c)
  {
  }

  /** A sentence ends at i: spaces from i up to j, behind `.`, `!` or `?` and before a capital letter. */
  lemma BoundaryIs(s: string, i: nat)
    requires 0 < i < |s|
    ensures BoundaryAt(s, i) <==>
              exists j :: i < j < |s| && (s[i - 1] == '.' || s[i - 1] == '!' || s[i - 1] == '?') && 'A' <= s[j] <= 'Z'
                && forall k :: i <= k < j ==> IsSpace(s[k])
  {
    RunIsSpace(s, i);
    if BoundaryAt(s, i) {
      RunEndAfter(s, i);
    }
    forall j | i < j < |s| && 'A' <= s[j] <= 'Z' && forall k :: i <= k < j ==> IsSpace(s[k])
      ensures RunEnd(s, i) == j
    {
      UpperIsNotSpace(s[j]);
      RunEndIs(s, i, j);
    }
  }

  lemma RunEndAfter(s: string, i: nat)
    requires i < |s| && IsSpace(s[i])
    ensures RunEnd(s, i) > i
  {
  }

  lemma {:induction false} RunEndIs(s: string, i: nat, j: nat)
    requires i <= j < |s| && !IsSpace(s[j]) && forall k :: i <= k < j ==> IsSpace(s[k])
    ensures RunEnd(s, i) == j
    decreases j - i
  {
    if i < j {
      RunEndIs(s, i + 1, j);
    }
  }

  predicate HasBoundary(s: string) {
    exists i :: 0 < i < |s| && BoundaryAt(s, i)
  }

  lemma {:induction false} RunEndInside(s: string, start: nat, end: nat, i: nat)
    requires start <= end <= |s| && start + i <= end && RunEnd(s[start..end], i) < end - start
    ensures RunEnd(s, start + i) == start + RunEnd(s[start..end], i)
    decreases end - start - i
  {
    if start + i < end && IsSpace(s[start + i]) {
      RunEndInside(s, start, end, i + 1);
    }
  }

  lemma BoundaryInside(s: string, start: nat, end: nat)
    requires start <= end <= |s|
    requires forall i :: start < i < end ==> !BoundaryAt(s, i)
    ensures !HasBoundary(s[start..end])
  {
    var piece := s[start..end];
    forall i | 0 < i < |piece|
      ensures !BoundaryAt(piece, i)
    {
      if RunEnd(piece, i) < |piece| {
        RunEndInside(s, start, end, i);
      }
      assert !BoundaryAt(s, start + i);
    }
  }

  /**
   * The pieces cannot be split further, and every cut is a boundary: what precedes it ends with a
   * stop and what follows it starts with a capital letter.
   */
  lemma {:induction false} PiecesAreSentences(s: string, start: nat, i: nat)
    requires start <= i <= |s|
    requires forall k :: start < k < i ==> !BoundaryAt(s, k)
    requires start < i || !BoundaryAt(s, start)
    ensures
      var pieces := Pieces(s, start, i);
      && |pieces| > 0
      && (forall k :: 0 <= k < |pieces| ==> !HasBoundary(pieces[k]))
      && (forall k :: 0 < k < |pieces| ==> pieces[k] != "" && IsUpper(pieces[k][0]))
      && (forall k :: 0 <= k < |pieces| - 1 ==> pieces[k] != "" && IsStop(pieces[k][|pieces[k]| - 1]))
      && (start < |s| ==> pieces[0] != "" && pieces[0][0] == s[start])
    decreases |s| - i
  {
    hide HasBoundary, IsSpace, IsStop, IsUpper;
    if i == |s| {
      assert s[start..|s|] == s[start..];
      BoundaryInside(s, start, |s|);
    } else if BoundaryAt(s, i) {
      var j := RunEnd(s, i + 1);
      assert j == RunEnd(s, i);
      UpperIsNotSpace(s[j]);
      PiecesAreSentences(s, j, j);
      BoundaryInside(s, start, i);
    } else {
      PiecesAreSentences(s, start, i + 1);
    }
  }

  lemma {:induction false} SplitFromJoins(s: string, sep: string, start: nat, i: nat)
    requires sep != "" && start <= i <= |s|
    ensures Join(sep, SplitFrom(s, sep, start, i)) == s[start..]
    decreases |s| - i
  {
    hide Join;
    if |s| < i + |sep| {
      JoinOne(sep, s[start..]);
    } else if s[i..i + |sep|] == sep {
      var j := i + |sep|;
      SplitFromJoins(s, sep, j, j);
      JoinCons(sep, s[start..i], SplitFrom(s, sep, j, j));
      assert s[start..] == s[start..i] + s[i..j] + s[j..];
    } else {
      SplitFromJoins(s, sep, start, i + 1);
    }
  }

  /** Joining the parts of a split gives back the text. */
  lemma SplitJoins(s: string, sep: string)
    requires sep != ""
    ensures Join(sep, Split(s, sep)) == s
  {
    SplitFromJoins(s, sep, 0, 0);
    assert s[0..] == s;
  }

  lemma {:induction false} NonSpaceJoin(sep: string, parts: seq<string>)
    requires NonSpace(sep) == ""
    ensures NonSpace(Join(sep, parts)) == NonSpace(Concat(parts))
  {
    if |parts| == 1 {
      ConcatOne(parts[0]);
      assert parts == [parts[0]];
    } else if parts != [] {
      NonSpaceJoin(sep, parts[1..]);
      NonSpaceAppend(parts[0] + sep, Join(sep, parts[1..]));
      NonSpaceAppend(parts[0], sep);
      NonSpaceAppend(parts[0], Concat(parts[1..]));
    }
  }

  /** The text handed on holds the non-space characters of the file. */
  predicate StandsIn(s: string, sep: string, q: nat) {
    q + |sep| <= |s| && s[q..q + |sep|] == sep
  }

  /** No part holds the separator. */
  lemma {:induction false} SplitLeavesNone(s: string, sep: string, start: nat, i: nat)
    requires sep != "" && start <= i <= |s| && forall q: nat :: start <= q < i ==> !StandsIn(s, sep, q)
    ensures forall p, q: nat :: p in SplitFrom(s, sep, start, i) ==> !StandsIn(p, sep, q)
    decreases |s| - i
  {
    if |s| < i + |sep| {
      NoneInside(s, sep, start, |s|);
      assert s[start..|s|] == s[start..];
    } else if s[i..i + |sep|] == sep {
      NoneInside(s, sep, start, i);
      SplitLeavesNone(s, sep, i + |sep|, i + |sep|);
    } else {
      SplitLeavesNone(s, sep, start, i + 1);
    }
  }

  lemma NoneInside(s: string, sep: string, a: nat, b: nat)
    requires sep != "" && a <= b <= |s| && forall q: nat :: a <= q && q + |sep| <= b ==> !StandsIn(s, sep, q)
    ensures forall q: nat :: !StandsIn(s[a..b], sep, q)
  {
    forall q: nat ensures !StandsIn(s[a..b], sep, q) {
      if q + |sep| <= b - a {
        SliceOfSlice(s, a, b, q, q + |sep|);
        assert !StandsIn(s, sep, a + q);
      }
    }
  }

  /** `kept` are the places of the parts that are not blank, in order. */
  ghost predicate AreKept(kept: seq<nat>, parts: seq<string>) {
    && (forall k :: 0 <= k < |kept| ==> kept[k] < |parts| && Strip(parts[kept[k]]) != "")
    && (forall k, m :: 0 <= k < m < |kept| ==> kept[k] < kept[m])
    && (forall p :: 0 <= p < |parts| && p !in kept ==> Strip(parts[p]) == "")
  }

  function StrippedAt(parts: seq<string>, kept: seq<nat>): (out: seq<string>)
    requires forall k :: 0 <= k < |kept| ==> kept[k] < |parts|
    ensures |out| == |kept| && forall k :: 0 <= k < |kept| ==> out[k] == Strip(parts[kept[k]])
  {
    seq(|kept|, k requires 0 <= k < |kept| => Strip(parts[kept[k]]))
  }

  lemma KeptMore(kept: seq<nat>, parts: seq<string>, part: string)
    requires AreKept(kept, parts)
    ensures var more := kept + if Strip(part) == "" then [] else [|parts|];
            && AreKept(more, parts + [part])
            && StrippedAt(parts + [part], more) == StrippedAt(parts, kept) + if Strip(part) == "" then [] else [Strip(part)]
  {
    hide Strip;
    var all := parts + [part];
    assert forall p :: 0 <= p < |parts| ==> all[p] == parts[p];
    if Strip(part) == "" {
      assert kept + [] == kept;
    } else {
      var more := kept + [|parts|];
      assert forall p :: p in more <==> p in kept || p == |parts|;
    }
  }

  lemma {:induction false} StripAllAre(parts: seq<string>) returns (kept: seq<nat>)
    ensures AreKept(kept, parts) && StripAll(parts) == StrippedAt(parts, kept)
  {
    hide Strip, AreKept;
    if parts == [] {
      kept := [];
      NothingKept();
    } else {
      var n := |parts| - 1;
      var front := StripAllAre(parts[..n]);
      StripAllAppend(parts[..n], parts[n]);
      KeptMore(front, parts[..n], parts[n]);
      assert parts == parts[..n] + [parts[n]];
      kept := front + if Strip(parts[n]) == "" then [] else [n];
    }
  }

  lemma NothingKept()
    ensures AreKept([], [])
  {
  }

  lemma {:induction false} StripAllAppend(parts: seq<string>, part: string)
    ensures StripAll(parts + [part]) == StripAll(parts) + if Strip(part) == "" then [] else [Strip(part)]
  {
    hide Strip;
    if parts == [] {
      assert [] + [part] == [part] && [part][1..] == [];
    } else {
      assert (parts + [part])[1..] == parts[1..] + [part];
      StripAllAppend(parts[1..], part);
    }
  }

  /**
   * What the plain-text chunker hands on: the parts of the content between blank lines that are not
   * blank, each stripped, joined by blank lines again.
   */
  lemma NormalizeIs(content: string) returns (parts: seq<string>, kept: seq<nat>)
    ensures Join("\n\n", parts) == content && forall p, q: nat :: p in parts ==> !StandsIn(p, "\n\n", q)
    ensures AreKept(kept, parts) && Normalize(content) == Join("\n\n", StrippedAt(parts, kept))
  {
    hide Strip, Join;
    parts := Split(content, "\n\n");
    SplitJoins(content, "\n\n");
    SplitLeavesNone(content, "\n\n", 0, 0);
    kept := StripAllAre(parts);
  }

  lemma NormalizeConserves(content: string)
    ensures NonSpace(Normalize(content)) == NonSpace(content)
  {
    var parts := Split(content, "\n\n");
    assert "\n\n"[1..] == "\n" && "\n"[1..] == "";
    NonSpaceJoin("\n\n", StripAll(parts));
    NonSpaceStripAll(parts);
    NonSpaceJoin("\n\n", parts);
    SplitJoins(content, "\n\n");
  }
}
