/**
 * Fenced code blocks in markdown: each is replaced by a placeholder before the text is split, and
 * every placeholder is replaced by its block again in each section, one key after the other.
 */
module Fences {
  import opened Sequences
  import opened Text

  const TICKS := "```"
  const MARK := "__CODE_BLOCK_"

  function Digits(n: nat): (s: string)
    ensures s != "" && forall i :: 0 <= i < |s| ==> '0' <= s[i] <= '9'
  {
    if n < 10 then ['0' + n as char] else Digits(n / 10) + ['0' + (n % 10) as char]
  }

  /** The placeholder of block n. */
  function Key(n: nat): (key: string)
    ensures key != ""
  {
    MARK + Digits(n) + "__"
  }

  predicate StartsWith(s: string, p: string) {
    |p| <= |s| && s[..|p|] == p
  }

  /** `s.replace(key, value)` */
  function Replace(s: string, key: string, value: string): string
    requires key != ""
    decreases |s|
  {
    if s == "" then ""
    else if StartsWith(s, key) then value + Replace(s[|key|..], key, value)
    else [s[0]] + Replace(s[1..], key, value)
  }

  /** A text seen as plain stretches with a fenced block between any two. */
  datatype Doc = End(text: string) | Fence(text: string, block: string, rest: Doc)

  function Original(d: Doc): string {
    match d
    case End(text) => text
    case Fence(text, block, rest) => text + block + Original(rest)
  }

  /** Block n once the keys below k are restored. */
  function Item(block: string, n: nat, k: nat): string {
    if n < k then block else Key(n)
  }

  /** The text with the placeholders from n on, of which those below k are restored. */
  function Partial(d: Doc, n: nat, k: nat): string {
    match d
    case End(text) => text
    case Fence(text, block, rest) => text + Item(block, n, k) + Partial(rest, n + 1, k)
  }

  function Blocks(d: Doc): seq<string> {
    match d
    case End(_) => []
    case Fence(_, block, rest) => [block] + Blocks(rest)
  }

  // ------------------------------------------------------ finding the blocks

  /** The first place at or after i where three backticks stand. */
  function FindTicks(s: string, i: nat): (r: Option<nat>)
    ensures r.Some? ==> i <= r.value && r.value + 3 <= |s| && s[r.value..r.value + 3] == TICKS
    decreases |s| - i
  {
    if |s| < i + 3 then None
    else if s[i..i + 3] == TICKS then Some(i)
    else FindTicks(s, i + 1)
  }

  /** The text from `start` on, when no block starts between `start` and i. */
  function Scan(s: string, start: nat, i: nat): Doc
    requires start <= i <= |s|
    decreases |s| - i
  {
    if |s| < i + 3 then End(s[start..])
    else if s[i..i + 3] == TICKS && FindTicks(s, i + 3).Some? then
      var end := FindTicks(s, i + 3).value + 3;
      Fence(s[start..i], s[i..end], Scan(s, end, end))
    else Scan(s, start, i + 1)
  }

  /** The fenced blocks of a text. */
  function Parse(s: string): Doc {
    Scan(s, 0, 0)
  }

  method Protect(s: string) returns (protected: string, blocks: seq<string>)
    ensures protected == Partial(Parse(s), 0, 0)
    ensures blocks == Blocks(Parse(s))
  {
    hide Partial, Scan, Blocks, Key;
    protected, blocks := "", [];
    var start, i := 0, 0;
    while i + 3 <= |s|
      invariant start <= i <= |s|
      invariant protected + Partial(Scan(s, start, i), |blocks|, 0) == Partial(Parse(s), 0, 0)
      invariant blocks + Blocks(Scan(s, start, i)) == Blocks(Parse(s))
    {
      var close := FindTicks(s, i + 3);
      ScanStep(s, start, i, protected, blocks);
      if s[i..i + 3] == TICKS && close.Some? {
        var end := close.value + 3;
        protected := protected + s[start..i] + Key(|blocks|);
        blocks := blocks + [s[i..end]];
        start, i := end, end;
      } else {
        i := i + 1;
      }
    }
    ScanEnd(s, start, i, |blocks|);
    protected := protected + s[start..];
  }

  lemma ScanFence(s: string, start: nat, i: nat, end: nat)
    requires start <= i && i + 3 <= end <= |s| && s[i..i + 3] == TICKS && FindTicks(s, i + 3) == Some(end - 3)
    ensures Scan(s, start, i) == Fence(s[start..i], s[i..end], Scan(s, end, end))
  {
    hide FindTicks;
  }

  /** What one step of the search adds to the protected text and to the blocks. */
  lemma ScanStep(s: string, start: nat, i: nat, protected: string, blocks: seq<string>)
    requires start <= i && i + 3 <= |s|
    ensures
      var n, close := |blocks|, FindTicks(s, i + 3);
      if s[i..i + 3] == TICKS && close.Some? then
        var end := close.value + 3;
        && protected + Partial(Scan(s, start, i), n, 0)
             == (protected + s[start..i] + Key(n)) + Partial(Scan(s, end, end), n + 1, 0)
        && blocks + Blocks(Scan(s, start, i)) == (blocks + [s[i..end]]) + Blocks(Scan(s, end, end))
      else Scan(s, start, i) == Scan(s, start, i + 1)
  {
    hide Key, FindTicks, Partial, Blocks;
    var n, close := |blocks|, FindTicks(s, i + 3);
    if s[i..i + 3] == TICKS && close.Some? {
      var end := close.value + 3;
      ScanFence(s, start, i, end);
      AddFence(protected, blocks, s[start..i], s[i..end], Scan(s, end, end));
    }
  }

  lemma AddFence(protected: string, blocks: seq<string>, text: string, block: string, rest: Doc)
    ensures
      var d, n := Fence(text, block, rest), |blocks|;
      && protected + Partial(d, n, 0) == (protected + text + Key(n)) + Partial(rest, n + 1, 0)
      && blocks + Blocks(d) == (blocks + [block]) + Blocks(rest)
  {
    hide Key;
    var n := |blocks|;
    Associative(protected, text + Key(n), Partial(rest, n + 1, 0));
    Associative(protected, text, Key(n));
    Associative(blocks, [block], Blocks(rest));
  }

  lemma ScanEnd(s: string, start: nat, i: nat, n: nat)
    requires start <= i <= |s| < i + 3
    ensures Partial(Scan(s, start, i), n, 0) == s[start..] && Blocks(Scan(s, start, i)) == []
  {
  }

  /** Restores the keys from i on. */
  function RestoreFrom(text: string, blocks: seq<string>, i: nat): string
    requires i <= |blocks|
    decreases |blocks| - i
  {
    if i == |blocks| then text else RestoreFrom(Replace(text, Key(i), blocks[i]), blocks, i + 1)
  }

  function Restore(text: string, blocks: seq<string>): string {
    RestoreFrom(text, blocks, 0)
  }

  method RestoreAll(text: string, blocks: seq<string>) returns (restored: string)
    ensures restored == Restore(text, blocks)
  {
    restored := text;
    for i := 0 to |blocks|
      invariant RestoreFrom(restored, blocks, i) == Restore(text, blocks)
    {
      restored := Replace(restored, Key(i), blocks[i]);
    }
  }

  // ------------------------------------------------------ which blocks are found

  predicate TicksAt(s: string, p: nat) {
    p + 3 <= |s| && s[p..p + 3] == "```"
  }

  /** Three backticks stand at p, and three more somewhere behind them. */
  ghost predicate CanOpen(s: string, p: nat) {
    TicksAt(s, p) && exists q: nat :: p + 3 <= q && TicksAt(s, q)
  }

  /**
   * The matches of the fence pattern in s from `start` on: each opens at the first place where a block
   * can open, and closes at the first three backticks behind its opening ones.
   */
  ghost predicate IsParse(d: Doc, s: string, start: nat)
    requires start <= |s|
    decreases d
  {
    match d
    case End(text) => text == s[start..] && forall p: nat :: start <= p ==> !CanOpen(s, p)
    case Fence(text, block, rest) =>
      var p, q := start + |text|, start + |text| + |block|;
      && p + 6 <= q <= |s| && text == s[start..p] && block == s[p..q]
      && TicksAt(s, p) && TicksAt(s, q - 3)
      && (forall m :: start <= m < p ==> !CanOpen(s, m))
      && (forall m :: p + 3 <= m < q - 3 ==> !TicksAt(s, m))
      && IsParse(rest, s, q)
  }

  lemma {:induction false} FindTicksIs(s: string, i: nat)
    ensures FindTicks(s, i).None? ==> forall q: nat :: i <= q ==> !TicksAt(s, q)
    ensures FindTicks(s, i).Some? ==>
              TicksAt(s, FindTicks(s, i).value) && forall q :: i <= q < FindTicks(s, i).value ==> !TicksAt(s, q)
    decreases |s| - i
  {
    if i + 3 <= |s| && s[i..i + 3] != TICKS {
      FindTicksIs(s, i + 1);
    }
  }

  lemma {:induction false} ScanIsParse(s: string, start: nat, i: nat)
    requires start <= i <= |s| && forall p :: start <= p < i ==> !CanOpen(s, p)
    ensures IsParse(Scan(s, start, i), s, start)
    decreases |s| - i
  {
    hide FindTicks, TicksAt;
    TicksAre(s, i);
    if i + 3 <= |s| {
      FindTicksIs(s, i + 3);
      if s[i..i + 3] == TICKS && FindTicks(s, i + 3).Some? {
        var end := FindTicks(s, i + 3).value + 3;
        ScanFence(s, start, i, end);
        ScanIsParse(s, end, end);
      } else {
        assert !CanOpen(s, i);
        ScanIsParse(s, start, i + 1);
      }
    } else {
      forall p: nat | i <= p ensures !TicksAt(s, p) {
        TicksAre(s, p);
      }
    }
  }

  lemma TicksAre(s: string, p: nat)
    ensures TicksAt(s, p) <==> p + 3 <= |s| && s[p..p + 3] == TICKS
  {
  }

  /** The blocks found are these matches, and no other division of the text has their properties. */
  lemma {:induction false} ParseIsUnique(d: Doc, s: string, start: nat)
    requires start <= |s| && IsParse(d, s, start)
    ensures d == Scan(s, start, start)
    decreases d
  {
    ScanIsParse(s, start, start);
    SameParse(d, Scan(s, start, start), s, start);
  }

  lemma FenceOpens(d: Doc, s: string, start: nat)
    requires start <= |s| && IsParse(d, s, start) && d.Fence?
    ensures CanOpen(s, start + |d.text|)
  {
    hide TicksAt;
  }

  lemma {:induction false} SameParse(d: Doc, e: Doc, s: string, start: nat)
    requires start <= |s| && IsParse(d, s, start) && IsParse(e, s, start)
    ensures d == e
    decreases d
  {
    hide TicksAt, CanOpen;
    if d.Fence? {
      FenceOpens(d, s, start);
    }
    if e.Fence? {
      FenceOpens(e, s, start);
    }
    if d.Fence? && e.Fence? {
      assert |d.text| == |e.text| && |d.block| == |e.block|;
      SameParse(d.rest, e.rest, s, start + |d.text| + |d.block|);
    }
  }

  // ------------------------------------------------------ the blocks found

  lemma {:induction false} ScanOriginal(s: string, start: nat, i: nat)
    requires start <= i <= |s|
    ensures Original(Scan(s, start, i)) == s[start..]
    decreases |s| - i
  {
    hide FindTicks;
    if |s| < i + 3 {
    } else if s[i..i + 3] == TICKS && FindTicks(s, i + 3).Some? {
      var end := FindTicks(s, i + 3).value + 3;
      ScanFence(s, start, i, end);
      ScanOriginal(s, end, end);
      assert s[start..] == s[start..i] + s[i..end] + s[end..];
    } else {
      ScanOriginal(s, start, i + 1);
    }
  }

  /** The marker text of the placeholders stands at i. */
  predicate MarkedAt(s: string, i: nat) {
    i + 11 <= |s| && s[i..i + 11] == "CODE_BLOCK_"
  }

  /** The marker text is nowhere in s. */
  ghost predicate Clean(s: string) {
    forall i: nat :: !MarkedAt(s, i)
  }

  lemma CleanSlice(s: string, a: nat, b: nat)
    requires Clean(s) && a <= b <= |s|
    ensures Clean(s[a..b])
  {
    forall i: nat ensures !MarkedAt(s[a..b], i) {
      if i + 11 <= b - a {
        SliceOfSlice(s, a, b, i, i + 11);
      }
      assert !MarkedAt(s, a + i);
    }
  }

  /** Plain text without the marker, and blocks without it that begin and end with a backtick. */
  ghost predicate CleanDoc(d: Doc) {
    match d
    case End(text) => Clean(text)
    case Fence(text, block, rest) =>
      Clean(text) && Clean(block) && block != "" && block[0] == '`' && block[|block| - 1] == '`' && CleanDoc(rest)
  }

  lemma {:induction false} ScanClean(s: string, start: nat, i: nat)
    requires start <= i <= |s| && Clean(s)
    ensures CleanDoc(Scan(s, start, i))
    decreases |s| - i
  {
    hide Clean;
    if |s| < i + 3 {
      CleanSlice(s, start, |s|);
      assert s[start..|s|] == s[start..];
    } else if s[i..i + 3] == TICKS && FindTicks(s, i + 3).Some? {
      var close := FindTicks(s, i + 3).value;
      CleanSlice(s, start, i);
      CleanSlice(s, i, close + 3);
      assert s[i..close + 3][0] == s[i..i + 3][0] && s[i..close + 3][close + 2 - i] == s[close..close + 3][2];
      ScanClean(s, close + 3, close + 3);
    } else {
      ScanClean(s, start, i + 1);
    }
  }

  // ------------------------------------------------------ where a key can stand

  lemma DiffersAt(s: string, p: string, i: nat)
    requires i < |p| && (i >= |s| || s[i] != p[i])
    ensures !StartsWith(s, p)
  {
    if |p| <= |s| {
      assert s[..|p|][i] == s[i];
    }
  }

  lemma KeyShape(k: nat)
    ensures |Key(k)| >= 16
    ensures forall i :: 0 <= i < 13 ==> Key(k)[i] == MARK[i]
    ensures '0' <= Key(k)[13] <= '9'
    ensures forall i :: 0 <= i < |Key(k)| ==> Key(k)[i] != '`' && Key(k)[i] != '\n'
    ensures forall i :: 13 <= i < |Key(k)| - 2 ==> '0' <= Key(k)[i] <= '9'
    ensures Key(k)[|Key(k)| - 2] == '_' && Key(k)[|Key(k)| - 1] == '_'
  {
  }

  /** What follows plain text: nothing, a restored block or a placeholder. */
  predicate FollowsPlain(rest: string) {
    rest == "" || rest[0] == '`' || (|rest| >= 2 && rest[0] == '_' && rest[1] == '_')
  }

  lemma MarkMismatch(t: string, at: nat) returns (i: nat)
    requires Clean(t) && at + 11 <= |t|
    ensures i < 11 && t[at + i] != MARK[2 + i]
  {
    assert !MarkedAt(t, at);
    i :| 0 <= i < 11 && t[at + i] != "CODE_BLOCK_"[i];
    assert MARK[2 + i] == "CODE_BLOCK_"[i];
  }

  /** In plain text no key starts, and no key goes on that began with its first one or two characters before it. */
  lemma NoKeyFrom(t: string, rest: string, k: nat, q: nat, j: nat)
    requires Clean(t) && FollowsPlain(rest) && q <= 2 && j <= |t| && (j < |t| || q > 0)
    ensures !StartsWith((t + rest)[j..], Key(k)[q..])
  {
    hide Key, Clean, StartsWith;
    KeyShape(k);
    var s, key := (t + rest)[j..], Key(k)[q..];
    // the place in the whole key of the first character behind t
    var m := |t| - j + q;
    if m >= 13 {
      var i := MarkMismatch(t, j + 2 - q);
      assert s[2 - q + i] == t[j + 2 - q + i] && key[2 - q + i] == MARK[2 + i];
      DiffersAt(s, key, 2 - q + i);
    } else if rest == "" || rest[0] != Key(k)[m] {
      DiffersAt(s, key, m - q);
    } else {
      assert rest[1] == '_' && Key(k)[m + 1] != '_';
      DiffersAt(s, key, m + 1 - q);
    }
  }

  lemma NoKeyInBlock(block: string, rest: string, k: nat, j: nat)
    requires Clean(block) && j < |block| && block[|block| - 1] == '`'
    ensures !StartsWith((block + rest)[j..], Key(k))
  {
    hide Key, Clean, StartsWith;
    KeyShape(k);
    var s := (block + rest)[j..];
    if j + 13 <= |block| {
      var i := MarkMismatch(block, j + 2);
      assert s[2 + i] == block[j + 2 + i];
      DiffersAt(s, Key(k), 2 + i);
    } else {
      DiffersAt(s, Key(k), |block| - 1 - j);
    }
  }

  lemma {:induction false} DigitsInjective(a: nat, b: nat)
    requires Digits(a) == Digits(b)
    ensures a == b
  {
    if a >= 10 && b >= 10 {
      var x, y := Digits(a / 10), Digits(b / 10);
      assert Digits(a)[..|Digits(a)| - 1] == x && Digits(b)[..|Digits(b)| - 1] == y;
      DigitsInjective(a / 10, b / 10);
      assert Digits(a)[|x|] == Digits(b)[|y|];
    }
  }

  /** A key does not stand where another one does. */
  lemma OtherKey(n: nat, k: nat, rest: string)
    requires n != k
    ensures !StartsWith(Key(n) + rest, Key(k))
  {
    var a, b := Digits(k), Digits(n);
    if a == b {
      DigitsInjective(k, n);
    }
    if |a| < |b| {
      DiffersAt(Key(n) + rest, Key(k), 13 + |a|);
    } else if |b| < |a| {
      DiffersAt(Key(n) + rest, Key(k), 13 + |b|);
    } else {
      var i :| 0 <= i < |a| && a[i] != b[i];
      DiffersAt(Key(n) + rest, Key(k), 13 + i);
    }
  }

  /** No key starts inside a placeholder of another one. */
  lemma NoKeyInKey(n: nat, t: string, rest: string, k: nat, j: nat)
    requires n != k && j < |Key(n)| && Clean(t) && FollowsPlain(rest)
    ensures !StartsWith((Key(n) + (t + rest))[j..], Key(k))
  {
    KeyShape(n);
    KeyShape(k);
    var s, last := (Key(n) + (t + rest))[j..], |Key(n)|;
    if j == 0 {
      OtherKey(n, k, t + rest);
    } else if j < last - 2 {
      if Key(n)[j] == '_' {
        assert Key(n)[j + 1] != '_';
        DiffersAt(s, Key(k), 1);
      } else {
        DiffersAt(s, Key(k), 0);
      }
    } else {
      var q := last - j;
      assert s[q..] == (t + rest)[0..];
      NoKeyFrom(t, rest, k, q, 0);
      TailDiffers(s, Key(k), q);
    }
  }

  lemma TailDiffers(s: string, p: string, q: nat)
    requires q <= |s| && q <= |p| && !StartsWith(s[q..], p[q..])
    ensures !StartsWith(s, p)
  {
    if |p| <= |s| {
      assert s[q..][..|p| - q] == s[..|p|][q..];
    }
  }

  // ------------------------------------------------------ restoring one key

  lemma {:induction false} SkipPrefix(p: string, rest: string, key: string, value: string)
    requires key != "" && forall j :: 0 <= j < |p| ==> !StartsWith((p + rest)[j..], key)
    ensures Replace(p + rest, key, value) == p + Replace(rest, key, value)
  {
    if p == "" {
      assert p + rest == rest;
    } else {
      assert (p + rest)[0..] == p + rest;
      assert (p + rest)[1..] == p[1..] + rest;
      forall j | 0 <= j < |p| - 1
        ensures !StartsWith((p[1..] + rest)[j..], key)
      {
        assert (p[1..] + rest)[j..] == (p + rest)[j + 1..];
      }
      SkipPrefix(p[1..], rest, key, value);
    }
  }

  lemma SkipPlain(t: string, rest: string, k: nat, value: string)
    requires Clean(t) && FollowsPlain(rest)
    ensures Replace(t + rest, Key(k), value) == t + Replace(rest, Key(k), value)
  {
    assert Key(k)[0..] == Key(k);
    forall j | 0 <= j < |t| ensures !StartsWith((t + rest)[j..], Key(k)) {
      NoKeyFrom(t, rest, k, 0, j);
    }
    SkipPrefix(t, rest, Key(k), value);
  }

  /** What follows the first plain text of a partly restored document. */
  function Follow(d: Doc, n: nat, k: nat): string {
    if d.End? then "" else Item(d.block, n, k) + Partial(d.rest, n + 1, k)
  }

  lemma PartialHead(d: Doc, n: nat, k: nat)
    requires CleanDoc(d)
    ensures Clean(d.text) && FollowsPlain(Follow(d, n, k)) && Partial(d, n, k) == d.text + Follow(d, n, k)
  {
    hide Clean, Key;
    KeyShape(n);
    if d.Fence? {
      Associative(d.text, Item(d.block, n, k), Partial(d.rest, n + 1, k));
    }
  }

  lemma PassBlock(block: string, rest: string, k: nat, value: string)
    requires Clean(block) && block != "" && block[|block| - 1] == '`'
    ensures Replace(block + rest, Key(k), value) == block + Replace(rest, Key(k), value)
  {
    hide Clean, Key, StartsWith;
    forall j | 0 <= j < |block| ensures !StartsWith((block + rest)[j..], Key(k)) {
      NoKeyInBlock(block, rest, k, j);
    }
    SkipPrefix(block, rest, Key(k), value);
  }

  lemma PassKey(n: nat, d: Doc, k: nat, value: string)
    requires CleanDoc(d) && n != k
    ensures var rest := Partial(d, n + 1, k);
            Replace(Key(n) + rest, Key(k), value) == Key(n) + Replace(rest, Key(k), value)
  {
    hide Clean, Key, StartsWith, CleanDoc, Partial, FollowsPlain;
    var rest := Partial(d, n + 1, k);
    PartialHead(d, n + 1, k);
    forall j | 0 <= j < |Key(n)| ensures !StartsWith((Key(n) + rest)[j..], Key(k)) {
      NoKeyInKey(n, d.text, Follow(d, n + 1, k), k, j);
    }
    SkipPrefix(Key(n), rest, Key(k), value);
  }

  lemma TakeKey(rest: string, k: nat, value: string)
    ensures Replace(Key(k) + rest, Key(k), value) == value + Replace(rest, Key(k), value)
  {
    var key := Key(k);
    assert (key + rest)[..|key|] == key && (key + rest)[|key|..] == rest;
  }

  lemma ReplaceItem(d: Doc, n: nat, k: nat, value: string)
    requires CleanDoc(d) && d.Fence? && (n == k ==> d.block == value)
    ensures var rest := Partial(d.rest, n + 1, k);
            Replace(Item(d.block, n, k) + rest, Key(k), value) == Item(d.block, n, k + 1) + Replace(rest, Key(k), value)
  {
    hide Clean, Key, Partial, Replace;
    var rest := Partial(d.rest, n + 1, k);
    if n < k {
      PassBlock(d.block, rest, k, value);
    } else if n == k {
      TakeKey(rest, k, value);
    } else {
      PassKey(n, d.rest, k, value);
    }
  }

  /** Replacing key k restores block k and changes nothing else. */
  lemma {:induction false} ReplaceStep(d: Doc, n: nat, k: nat, value: string)
    requires CleanDoc(d) && (n <= k < n + |Blocks(d)| ==> Blocks(d)[k - n] == value)
    ensures Replace(Partial(d, n, k), Key(k), value) == Partial(d, n, k + 1)
  {
    hide Clean, Key, FollowsPlain, Partial, Item, Replace, CleanDoc, Blocks;
    PartialHead(d, n, k);
    PartialHead(d, n, k + 1);
    SkipPlain(d.text, Follow(d, n, k), k, value);
    if d.Fence? {
      CleanBehind(d);
      BlocksBehind(d, n, k, value);
      ReplaceItem(d, n, k, value);
      ReplaceStep(d.rest, n + 1, k, value);
    } else {
      ReplaceNothing(Key(k), value);
    }
  }

  lemma BlocksBehind(d: Doc, n: nat, k: nat, value: string)
    requires d.Fence? && (n <= k < n + |Blocks(d)| ==> Blocks(d)[k - n] == value)
    ensures n == k ==> d.block == value
    ensures n + 1 <= k < n + 1 + |Blocks(d.rest)| ==> Blocks(d.rest)[k - (n + 1)] == value
  {
    hide *;
    BlocksAre(d);
    if n <= k < n + |Blocks(d)| {
      ConsAt(d.block, Blocks(d.rest), k - n);
    }
  }

  lemma BlocksAre(d: Doc)
    requires d.Fence?
    ensures Blocks(d) == [d.block] + Blocks(d.rest)
  {
  }

  lemma ConsAt<T>(x: T, rest: seq<T>, i: nat)
    requires i <= |rest|
    ensures ([x] + rest)[i] == if i == 0 then x else rest[i - 1]
  {
  }

  lemma CleanBehind(d: Doc)
    requires CleanDoc(d) && d.Fence?
    ensures CleanDoc(d.rest)
  {
    hide Clean;
  }

  lemma ReplaceNothing(key: string, value: string)
    requires key != ""
    ensures Replace("", key, value) == ""
  {
  }

  lemma {:induction false} PartialWhole(d: Doc, n: nat, k: nat)
    requires n + |Blocks(d)| <= k
    ensures Partial(d, n, k) == Original(d)
  {
    if d.Fence? {
      PartialWhole(d.rest, n + 1, k);
    }
  }

  /** Restoring the keys in order from i on completes a document whose blocks are numbered from n. */
  lemma {:induction false} RestoreDoc(d: Doc, n: nat, blocks: seq<string>, i: nat)
    requires CleanDoc(d) && i <= |blocks|
    requires n + |Blocks(d)| <= |blocks| && blocks[n..n + |Blocks(d)|] == Blocks(d)
    ensures RestoreFrom(Partial(d, n, i), blocks, i) == Original(d)
    decreases |blocks| - i
  {
    hide Partial, Blocks, Key;
    if i == |blocks| {
      PartialWhole(d, n, i);
    } else {
      if n <= i < n + |Blocks(d)| {
        assert blocks[n..n + |Blocks(d)|][i - n] == blocks[i];
      }
      ReplaceStep(d, n, i, blocks[i]);
      RestoreDoc(d, n, blocks, i + 1);
    }
  }

  // ------------------------------------------------------ restoring any text

  /** The key stands in s at p. */
  predicate StandsAt(s: string, key: string, p: nat) {
    p <= |s| && StartsWith(s[p..], key)
  }

  /** The first place where the key stands, or the end. */
  lemma {:induction false} FirstPlace(s: string, key: string) returns (p: nat)
    requires key != ""
    ensures p <= |s| && (forall q :: 0 <= q < p ==> !StandsAt(s, key, q))
    ensures p < |s| ==> StandsAt(s, key, p) && p + |key| <= |s|
    ensures p == |s| ==> forall q: nat :: !StandsAt(s, key, q)
  {
    p := 0;
    while p < |s| && !StandsAt(s, key, p)
      invariant p <= |s| && forall q :: 0 <= q < p ==> !StandsAt(s, key, q)
    {
      p := p + 1;
    }
  }

  lemma ReplaceHere(s: string, key: string, value: string)
    requires key != "" && (s == "" || StartsWith(s, key))
    ensures Replace(s, key, value) == if s == "" then "" else value + Replace(s[|key|..], key, value)
  {
  }

  lemma ReplaceFirst(s: string, key: string, value: string, p: nat)
    requires key != "" && p <= |s| && forall q :: 0 <= q < p ==> !StandsAt(s, key, q)
    requires p < |s| ==> StandsAt(s, key, p) && p + |key| <= |s|
    ensures Replace(s, key, value) == if p == |s| then s else s[..p] + value + Replace(s[p + |key|..], key, value)
  {
    hide Replace, StartsWith;
    assert s[..p] + s[p..] == s;
    forall j | 0 <= j < |s[..p]| ensures !StartsWith((s[..p] + s[p..])[j..], key) {
      assert !StandsAt(s, key, j);
    }
    SkipPrefix(s[..p], s[p..], key, value);
    ReplaceHere(s[p..], key, value);
    if p < |s| {
      assert s[p..][|key|..] == s[p + |key|..];
      Associative(s[..p], value, Replace(s[p + |key|..], key, value));
    }
  }

  lemma StartsApart(a: string, c: char, b: string, key: string)
    requires forall i :: 0 <= i < |key| ==> key[i] != c
    ensures StartsWith(a + [c] + b, key) <==> StartsWith(a, key)
  {
    var s := a + [c] + b;
    if |key| > |a| {
      DiffersAt(s, key, |a|);
    } else {
      assert s[..|key|] == a[..|key|];
    }
  }

  /** A key without the character c is replaced on either side of c alone. */
  lemma {:induction false} ReplaceApart(a: string, c: char, b: string, key: string, value: string)
    requires key != "" && forall i :: 0 <= i < |key| ==> key[i] != c
    ensures Replace(a + [c] + b, key, value) == Replace(a, key, value) + [c] + Replace(b, key, value)
    decreases |a|
  {
    hide StartsWith;
    var s := a + [c] + b;
    StartsApart(a, c, b, key);
    if a == "" {
      DiffersAt("", key, 0);
      assert s[1..] == b;
    } else if StartsWith(a, key) {
      AtLeast(a, key);
      assert s[|key|..] == a[|key|..] + [c] + b;
      ReplaceApart(a[|key|..], c, b, key, value);
      Associative(value, Replace(a[|key|..], key, value), [c]);
      Associative(value, Replace(a[|key|..], key, value) + [c], Replace(b, key, value));
    } else {
      assert s[1..] == a[1..] + [c] + b;
      ReplaceApart(a[1..], c, b, key, value);
    }
  }

  lemma AtLeast(s: string, p: string)
    requires StartsWith(s, p)
    ensures |p| <= |s|
  {
  }

  /** So are all keys. */
  lemma {:induction false} RestoreApart(a: string, c: char, b: string, blocks: seq<string>, i: nat)
    requires i <= |blocks| && (c == '`' || c == '\n')
    ensures RestoreFrom(a + [c] + b, blocks, i) == RestoreFrom(a, blocks, i) + [c] + RestoreFrom(b, blocks, i)
    decreases |blocks| - i
  {
    hide Key, Replace;
    if i < |blocks| {
      KeyShape(i);
      ReplaceApart(a, c, b, Key(i), blocks[i]);
      RestoreApart(Replace(a, Key(i), blocks[i]), c, Replace(b, Key(i), blocks[i]), blocks, i + 1);
    }
  }

  predicate Ticked(block: string) {
    block != "" && block[0] == '`'
  }

  ghost predicate AllTicked(blocks: seq<string>) {
    forall k :: 0 <= k < |blocks| ==> Ticked(blocks[k])
  }

  /** The beginning of a placeholder, never a whole one. */
  ghost predicate IsStub(stub: string) {
    exists m: nat, t: nat :: t < |Key(m)| && stub == Key(m)[..t]
  }

  lemma NoStub()
    ensures IsStub("")
  {
    assert "" == Key(0)[..0];
  }

  lemma NoKeyInStub(stub: string, k: nat, j: nat)
    requires IsStub(stub) && j <= |stub|
    ensures !StandsAt(stub, Key(k), j)
  {
    hide Key, StartsWith, Digits;
    var m: nat, t: nat :| t < |Key(m)| && stub == Key(m)[..t];
    KeyShape(m);
    KeyShape(k);
    if j == 0 {
      assert stub[0..] == stub;
      if m == k {
        Shorter(stub, Key(k));
      } else {
        OtherKey(m, k, "");
        StubOf(Key(m), t, Key(k));
      }
    } else if j + 16 > t {
      Shorter(stub[j..], Key(k));
    } else if Key(m)[j] == '_' {
      assert Key(m)[j + 1] != '_';
      DiffersAt(stub[j..], Key(k), 1);
    } else {
      DiffersAt(stub[j..], Key(k), 0);
    }
  }

  lemma Shorter(s: string, p: string)
    requires |s| < |p|
    ensures !StartsWith(s, p)
  {
  }

  lemma StubOf(key: string, t: nat, p: string)
    requires t <= |key| && !StartsWith(key + "", p)
    ensures !StartsWith(key[..t], p)
  {
    assert key + "" == key;
    if |p| <= t {
      assert key[..t][..|p|] == key[..|p|];
    }
  }

  function Prepend(s: string, d: Doc): Doc {
    d.(text := s + d.text)
  }

  /** The first block taken as plain text. */
  function Settled(d: Doc): Doc
    requires d.Fence?
  {
    Prepend(d.text + d.block, d.rest)
  }

  lemma PrependIs(s: string, d: Doc, n: nat, k: nat)
    ensures Partial(Prepend(s, d), n, k) == s + Partial(d, n, k)
    ensures Original(Prepend(s, d)) == s + Original(d) && Blocks(Prepend(s, d)) == Blocks(d)
  {
    hide Item;
    if d.Fence? {
      Associative(s, d.text, Item(d.block, n, k));
      Associative(s, d.text + Item(d.block, n, k), Partial(d.rest, n + 1, k));
      Associative(s, d.text, d.block);
      Associative(s, d.text + d.block, Original(d.rest));
    }
  }

  lemma SettledIs(d: Doc, n: nat, k: nat)
    requires d.Fence? && n < k
    ensures Partial(Settled(d), n + 1, k) == Partial(d, n, k)
    ensures Original(Settled(d)) == Original(d) && Blocks(d) == [d.block] + Blocks(Settled(d))
  {
    PrependIs(d.text + d.block, d.rest, n + 1, k);
  }

  lemma {:induction false} NoneRestored(d: Doc, n: nat, k: nat)
    requires k <= n
    ensures Partial(d, n, k) == Partial(d, n, 0)
  {
    if d.Fence? {
      NoneRestored(d.rest, n + 1, k);
    }
  }

  /** e stops short inside d, and what comes next in d is not what comes behind e; neither is a space. */
  ghost predicate StopsIn(e: Doc, stub: string, d: Doc) {
    var n := |Original(e)|;
    && n < |Original(d)| && Original(d)[..n] == Original(e) && Original(d)[n] != (stub + "`")[0]
    && !IsSpace(Original(d)[n]) && !IsSpace((stub + "`")[0])
  }

  ghost predicate IsPrefix<T(!new)>(a: seq<T>, b: seq<T>) {
    |a| <= |b| && b[..|a|] == a
  }

  lemma CutInText(d: Doc, n: nat, stub: string, k: nat, p: nat)
    requires p < |d.text| && StandsAt(Partial(d, n, 0) + stub, Key(k), p)
    ensures (Partial(d, n, 0) + stub)[..p] == Partial(End(d.text[..p]), n, 0) + ""
    ensures StopsIn(End(d.text[..p]), "", d)
  {
    hide Key, StartsWith;
    KeyShape(k);
    var all := Partial(d, n, 0) + stub;
    assert all[..p] == d.text[..p] && all[p] == d.text[p];
    StartsLike(all[p..], Key(k));
    TextStops(d, p);
  }

  lemma CutInKey(d: Doc, n: nat, stub: string, k: nat, p: nat)
    requires d.Fence? && |d.text| <= p < |d.text| + |Key(n)| && k != n && Ticked(d.block)
    requires StandsAt(Partial(d, n, 0) + stub, Key(k), p)
    ensures (Partial(d, n, 0) + stub)[..p] == Partial(End(d.text), n, 0) + Key(n)[..p - |d.text|]
    ensures StopsIn(End(d.text), Key(n)[..p - |d.text|], d)
  {
    hide Key, StartsWith, Partial, Original;
    var all, behind := Partial(d, n, 0) + stub, Partial(d.rest, n + 1, 0) + stub;
    FenceThen(d, n, stub);
    KeyShape(n);
    EndIs(d.text, n);
    if p == |d.text| {
      assert all[p..] == Key(n) + behind;
      OtherKey(n, k, behind);
      assert false;
    }
    assert all[..p] == d.text + Key(n)[..p - |d.text|];
    assert Original(d)[|d.text|] == d.block[0];
  }

  lemma EndIs(text: string, n: nat)
    ensures Partial(End(text), n, 0) == text && Original(End(text)) == text && Blocks(End(text)) == []
  {
  }

  /** Where a key stands that has no placeholder here, the document can be cut, maybe inside a placeholder. */
  lemma {:induction false} CutAt(d: Doc, n: nat, stub: string, k: nat, p: nat) returns (e: Doc, rest: string)
    requires k < n && IsStub(stub) && AllTicked(Blocks(d)) && StandsAt(Partial(d, n, 0) + stub, Key(k), p)
    ensures p <= |Partial(d, n, 0) + stub| && (Partial(d, n, 0) + stub)[..p] == Partial(e, n, 0) + rest
    ensures IsStub(rest) && StopsIn(e, rest, d) && IsPrefix(Blocks(e), Blocks(d))
    decreases d
  {
    hide Key, StartsWith, IsStub, Partial, Original, Blocks, AllTicked, StopsIn;
    var all, head := Partial(d, n, 0) + stub, |d.text|;
    if p < head {
      e, rest := End(d.text[..p]), "";
      NoStub();
      CutInText(d, n, stub, k, p);
      EndIs(d.text[..p], n);
    } else if d.End? {
      EndIs(d.text, n);
      assert all[p..] == stub[p - head..];
      NoKeyInStub(stub, k, p - head);
      assert false;
    } else if p < head + |Key(n)| {
      TickedRest(d);
      e, rest := End(d.text), Key(n)[..p - head];
      CutInKey(d, n, stub, k, p);
      KeyStub(n, p - head);
      EndIs(d.text, n);
    } else {
      var behind, q := Partial(d.rest, n + 1, 0) + stub, p - head - |Key(n)|;
      FenceThen(d, n, stub);
      assert all[p..] == behind[q..];
      TickedRest(d);
      var inner;
      inner, rest := CutAt(d.rest, n + 1, stub, k, q);
      e := Fence(d.text, d.block, inner);
      FenceThen(e, n, rest);
      assert all[..p] == d.text + (Key(n) + behind[..q]);
      FenceStops(d, inner, rest);
    }
  }

  lemma KeyStub(n: nat, t: nat)
    requires t < |Key(n)|
    ensures IsStub(Key(n)[..t])
  {
    hide Key;
  }

  lemma StartsLike(s: string, p: string)
    requires StartsWith(s, p) && p != ""
    ensures s != "" && s[0] == p[0]
  {
    assert s[..|p|][0] == s[0];
  }

  lemma TextStops(d: Doc, p: nat)
    requires p < |d.text| && d.text[p] == '_'
    ensures StopsIn(End(d.text[..p]), "", d)
  {
    var original := if d.End? then "" else d.block + Original(d.rest);
    assert Original(d) == d.text + original;
  }

  lemma FenceThen(d: Doc, n: nat, stub: string)
    requires d.Fence?
    ensures Partial(d, n, 0) + stub == d.text + (Key(n) + (Partial(d.rest, n + 1, 0) + stub))
    ensures Original(d) == d.text + (d.block + Original(d.rest))
    ensures Partial(d, n, 0) == d.text + (Key(n) + Partial(d.rest, n + 1, 0))
  {
    hide Key;
    var rest := Partial(d.rest, n + 1, 0);
    Associative(d.text, Key(n), rest);
    Associative(d.text, Key(n) + rest, stub);
    Associative(Key(n), rest, stub);
    Associative(d.text, d.block, Original(d.rest));
  }

  lemma TickedRest(d: Doc)
    requires d.Fence? && AllTicked(Blocks(d))
    ensures AllTicked(Blocks(d.rest)) && Ticked(d.block)
  {
    assert Blocks(d)[0] == d.block && Blocks(d)[1..] == Blocks(d.rest);
  }

  lemma FenceStops(d: Doc, inner: Doc, stub: string)
    requires d.Fence? && StopsIn(inner, stub, d.rest) && IsPrefix(Blocks(inner), Blocks(d.rest))
    ensures StopsIn(Fence(d.text, d.block, inner), stub, d)
    ensures IsPrefix(Blocks(Fence(d.text, d.block, inner)), Blocks(d))
  {
    var e, head := Fence(d.text, d.block, inner), d.text + d.block;
    assert Original(e) == head + Original(inner) && Original(d) == head + Original(d.rest);
    assert Blocks(e) == [d.block] + Blocks(inner) && Blocks(d) == [d.block] + Blocks(d.rest);
  }

  /** From x on the two differ, and not in a space. */
  predicate DivergesAt(a: string, b: string, x: nat) {
    x < |a| && x < |b| && a[..x] == b[..x] && a[x] != b[x] && !IsSpace(a[x]) && !IsSpace(b[x])
  }

  ghost predicate Diverges(a: string, b: string) {
    exists x: nat :: DivergesAt(a, b, x)
  }

  lemma DivergesFurther(a: string, b: string, c: string, d: string)
    requires Diverges(a, b) && |b| <= |d| && d[..|b|] == b
    ensures Diverges(a + c, d)
  {
    var x: nat :| DivergesAt(a, b, x);
    assert d[..|b|][..x] == d[..x] && (a + c)[..x] == a[..x];
    assert d[..|b|][x] == d[x];
    assert DivergesAt(a + c, d, x);
  }

  /** Then they differ in their non-space characters. */
  lemma DivergesApart(a: string, b: string)
    requires Diverges(a, b)
    ensures NonSpace(a) != NonSpace(b)
  {
    var x: nat :| DivergesAt(a, b, x);
    assert a == a[..x] + a[x..] && b == b[..x] + b[x..];
    NonSpaceAppend(a[..x], a[x..]);
    NonSpaceAppend(b[..x], b[x..]);
    var n := |NonSpace(a[..x])|;
    assert NonSpace(a)[n] == a[x] && NonSpace(b)[n] == b[x];
  }

  /** The key stands in s only where its placeholder is. */
  ghost predicate Alone(s: string, key: string, place: nat) {
    forall p: nat :: StandsAt(s, key, p) ==> place <= p < place + |key|
  }

  /** What replacing the key of block i makes of a document whose placeholders are numbered from n on. */
  datatype Outcome = Fine(doc: Doc) | Stray(doc: Doc, stub: string, rest: string)

  /** The blocks of d are those numbered from m on. */
  ghost predicate Fits(d: Doc, m: nat, blocks: seq<string>) {
    m <= |blocks| && m + |Blocks(d)| <= |blocks| && blocks[m..m + |Blocks(d)|] == Blocks(d)
  }

  /** The text after the replacement is again a document, or has a block where d has something else. */
  ghost predicate Leads(d: Doc, stub: string, text: string, m: nat, blocks: seq<string>, o: Outcome) {
    && Fits(o.doc, m, blocks)
    && match o
       case Fine(e) => text == Partial(e, m, 0) + stub && Original(e) == Original(d)
       case Stray(e, s, rest) =>
         IsStub(s) && text == (Partial(e, m, 0) + s) + "`" + rest && StopsIn(e, s, d)
  }

  lemma PrefixFits(e: Doc, d: Doc, m: nat, blocks: seq<string>)
    requires Fits(d, m, blocks) && IsPrefix(Blocks(e), Blocks(d))
    ensures Fits(e, m, blocks)
  {
    hide Blocks;
    SliceOfSlice(blocks, m, m + |Blocks(d)|, 0, |Blocks(e)|);
  }

  lemma FitsTicked(d: Doc, n: nat, blocks: seq<string>)
    requires Fits(d, n, blocks) && AllTicked(blocks)
    ensures AllTicked(Blocks(d))
  {
    forall k | 0 <= k < |Blocks(d)| ensures Ticked(Blocks(d)[k]) {
      assert blocks[n..n + |Blocks(d)|][k] == blocks[n + k];
    }
  }

  /** Taking the key at p, where it stands first, puts a backtick at p. */
  lemma TakenAt(s: string, key: string, value: string, p: nat) returns (rest: string)
    requires key != "" && p < |s| && (forall q :: 0 <= q < p ==> !StandsAt(s, key, q)) && Ticked(value)
    requires StandsAt(s, key, p) && p + |key| <= |s|
    ensures Replace(s, key, value) == s[..p] + "`" + rest
  {
    hide Replace, StandsAt;
    rest := value[1..] + Replace(s[p + |key|..], key, value);
    ReplaceFirst(s, key, value, p);
    assert value == "`" + value[1..];
  }

  /** A key that has no placeholder in the document. */
  lemma ForeignKey(d: Doc, n: nat, stub: string, i: nat, blocks: seq<string>) returns (o: Outcome)
    requires i < n && i < |blocks| && IsStub(stub) && AllTicked(blocks) && Fits(d, n, blocks)
    ensures Leads(d, stub, Replace(Partial(d, n, 0) + stub, Key(i), blocks[i]), n, blocks, o)
    ensures o.Fine? <==> forall p: nat :: !StandsAt(Partial(d, n, 0) + stub, Key(i), p)
    ensures o.Fine? ==> o.doc == d
  {
    hide Key, Replace, Partial, Original, Blocks, StandsAt, IsStub, AllTicked, StopsIn, Fits;
    var all := Partial(d, n, 0) + stub;
    var p := FirstPlace(all, Key(i));
    if p == |all| {
      ReplaceFirst(all, Key(i), blocks[i], p);
      o := Fine(d);
    } else {
      FitsTicked(d, n, blocks);
      TickedAt(blocks, i);
      var e, s := CutAt(d, n, stub, i, p);
      var rest := TakenAt(all, Key(i), blocks[i], p);
      PrefixFits(e, d, n, blocks);
      o := Stray(e, s, rest);
    }
  }

  lemma TickedAt(blocks: seq<string>, i: nat)
    requires AllTicked(blocks) && i < |blocks|
    ensures Ticked(blocks[i])
  {
  }

  /** The key of the first block, which stands alone or not. */
  lemma OwnKey(d: Doc, n: nat, stub: string, blocks: seq<string>) returns (o: Outcome)
    requires d.Fence? && n < |blocks| && IsStub(stub) && AllTicked(blocks) && Fits(d, n, blocks)
    ensures Leads(d, stub, Replace(Partial(d, n, 0) + stub, Key(n), blocks[n]), n + 1, blocks, o)
    ensures o.Fine? <==> Alone(Partial(d, n, 0) + stub, Key(n), |d.text|)
    ensures o.Fine? ==> o.doc == Settled(d)
  {
    hide Key, Replace, Partial, Original, Blocks, StandsAt, IsStub, AllTicked, StopsIn, Fits;
    var all, key, value := Partial(d, n, 0) + stub, Key(n), blocks[n];
    var behind := Partial(d.rest, n + 1, 0) + stub;
    FenceThen(d, n, stub);
    FitsTicked(d, n, blocks);
    TickedAt(blocks, n);
    FitsRest(d, n, blocks);
    var p := FirstPlace(all, key);
    PlaceholderStands(d.text, key, behind);
    assert p <= |d.text|;
    if p < |d.text| {
      var e := End(d.text[..p]);
      var rest := TakenAt(all, key, value, p);
      CutInText(d, n, stub, n, p);
      EndIs(d.text[..p], n);
      EndIs(d.text[..p], n + 1);
      NoStub();
      NothingFits(e, n + 1, blocks);
      o := Stray(e, "", rest);
      assert StandsAt(all, key, p);
    } else {
      ReplaceFirst(all, key, value, p);
      assert all[..p] == d.text && all[p + |key|..] == behind;
      var inner := ForeignKey(d.rest, n + 1, stub, n, blocks);
      AloneBehind(d.text, key, behind);
      o := Lift(d, stub, Replace(behind, key, value), n + 1, blocks, inner);
    }
  }

  /** What happens behind the first block happens to the document with that block in place. */
  lemma Lift(d: Doc, stub: string, text: string, m: nat, blocks: seq<string>, inner: Outcome) returns (o: Outcome)
    requires d.Fence? && Leads(d.rest, stub, text, m, blocks, inner)
    ensures Leads(d, stub, d.text + d.block + text, m, blocks, o)
    ensures o.Fine? <==> inner.Fine?
    ensures inner.doc == d.rest ==> o.doc == Settled(d)
  {
    hide Partial, Original, Blocks, IsStub, StopsIn, Fits;
    var head := d.text + d.block;
    PrependIs(head, inner.doc, m, 0);
    PrependIs(head, d.rest, m, 0);
    SettledIs(d, 0, 1);
    PrependFits(head, inner.doc, m, blocks);
    match inner
    case Fine(e) =>
      o := Fine(Prepend(head, e));
      Associative(head, Partial(e, m, 0), stub);
    case Stray(e, s, rest) =>
      o := Stray(Prepend(head, e), s, rest);
      Associative(head, Partial(e, m, 0), s);
      Associative(head, Partial(e, m, 0) + s, "`");
      Associative(head, Partial(e, m, 0) + s + "`", rest);
      PrependStops(head, e, s, d.rest, d);
  }

  lemma PrependStops(head: string, e: Doc, stub: string, rest: Doc, d: Doc)
    requires StopsIn(e, stub, rest) && Original(d) == head + Original(rest)
    ensures StopsIn(Prepend(head, e), stub, d)
  {
    PrependIs(head, e, 0, 0);
  }

  lemma PrependFits(head: string, e: Doc, m: nat, blocks: seq<string>)
    requires Fits(e, m, blocks)
    ensures Fits(Prepend(head, e), m, blocks)
  {
    PrependIs(head, e, 0, 0);
  }

  lemma NothingFits(e: Doc, m: nat, blocks: seq<string>)
    requires e.End? && m <= |blocks|
    ensures Fits(e, m, blocks)
  {
  }

  lemma FitsRest(d: Doc, n: nat, blocks: seq<string>)
    requires d.Fence? && Fits(d, n, blocks)
    ensures n < |blocks| && Fits(d.rest, n + 1, blocks) && blocks[n] == d.block
  {
    assert blocks[n..n + |Blocks(d)|][0] == blocks[n];
    assert blocks[n + 1..n + |Blocks(d)|] == blocks[n..n + |Blocks(d)|][1..];
  }

  lemma PlaceholderStands(text: string, key: string, behind: string)
    requires key != ""
    ensures StandsAt(text + (key + behind), key, |text|)
  {
    var s := text + (key + behind);
    assert s[|text|..] == key + behind && (key + behind)[..|key|] == key;
  }

  lemma AloneBehind(text: string, key: string, behind: string)
    requires key != "" && forall q :: 0 <= q < |text| ==> !StandsAt(text + (key + behind), key, q)
    ensures Alone(text + (key + behind), key, |text|) <==> forall p: nat :: !StandsAt(behind, key, p)
  {
    hide StartsWith;
    var s, m := text + (key + behind), |text| + |key|;
    forall p: nat ensures StandsAt(behind, key, p) <==> StandsAt(s, key, m + p) {
      if p <= |behind| {
        assert s[m + p..] == behind[p..];
      }
    }
    if Alone(s, key, |text|) {
      forall p: nat ensures !StandsAt(behind, key, p) {
        assert !StandsAt(s, key, m + p);
      }
    } else {
      var p: nat :| StandsAt(s, key, p) && !(|text| <= p < m);
      assert StandsAt(behind, key, p - m);
    }
  }

  /** Restoring the rest of the keys gives the original, or something that differs from it in some place. */
  lemma {:induction false} Restoring(d: Doc, n: nat, stub: string, blocks: seq<string>, i: nat)
    requires i <= n <= |blocks| && IsStub(stub) && AllTicked(blocks) && Fits(d, n, blocks)
    ensures var restored := RestoreFrom(Partial(d, n, 0) + stub, blocks, i);
            restored == Original(d) + stub || Diverges(restored, Original(d))
    decreases |blocks| - i
  {
    hide Key, Replace, Partial, Original, Blocks, StandsAt, IsStub, AllTicked, StopsIn, Fits, Diverges;
    if i == |blocks| {
      FitsEnd(d, n, blocks);
    } else {
      var o: Outcome, m: nat;
      if i == n && d.Fence? {
        m := n + 1;
        o := OwnKey(d, n, stub, blocks);
      } else {
        m := if i == n then n + 1 else n;
        if i == n {
          EndIs(d.text, n);
          EndIs(d.text, m);
          NothingFits(d, m, blocks);
        }
        o := ForeignKey(d, m, stub, i, blocks);
      }
      match o
      case Fine(e) =>
        Restoring(e, m, stub, blocks, i + 1);
      case Stray(e, s, rest) =>
        Restoring(e, m, s, blocks, i + 1);
        StrayDiverges(d, e, m, s, rest, blocks, i + 1);
    }
  }

  lemma FitsEnd(d: Doc, n: nat, blocks: seq<string>)
    requires n >= |blocks| && Fits(d, n, blocks)
    ensures d.End? && Partial(d, n, 0) == Original(d)
  {
  }

  lemma StrayDiverges(d: Doc, e: Doc, m: nat, stub: string, rest: string, blocks: seq<string>, i: nat)
    requires i <= |blocks| && IsStub(stub) && StopsIn(e, stub, d)
    requires var restored := RestoreFrom(Partial(e, m, 0) + stub, blocks, i);
             restored == Original(e) + stub || Diverges(restored, Original(e))
    ensures Diverges(RestoreFrom((Partial(e, m, 0) + stub) + "`" + rest, blocks, i), Original(d))
  {
    hide RestoreFrom, Partial, Original, IsStub;
    var text := Partial(e, m, 0) + stub;
    var a, b := RestoreFrom(text, blocks, i), RestoreFrom(rest, blocks, i);
    RestoreApart(text, '`', rest, blocks, i);
    if a == Original(e) + stub {
      var all, x := a + "`" + b, |Original(e)|;
      assert all == Original(e) + (stub + "`" + b);
      assert all[..x] == Original(e) && all[x] == (stub + "`")[0] != Original(d)[x];
      assert DivergesAt(all, Original(d), x);
    } else {
      hide Diverges;
      DivergesFurther(a, Original(e), "`" + b, Original(d));
      assert a + ("`" + b) == a + "`" + b;
    }
  }

  // ------------------------------------------------------ when the text comes back

  /** Where placeholder k of the document stands once those before it are restored. */
  function Place(d: Doc, k: nat): nat
    requires k < |Blocks(d)|
  {
    if k == 0 then |d.text| else |d.text| + |d.block| + Place(d.rest, k - 1)
  }

  /** At its turn, each key stands nowhere but in its placeholder. */
  ghost predicate NoStrayFrom(d: Doc, n: nat) {
    forall k :: 0 <= k < |Blocks(d)| ==> Alone(Partial(d, n, n + k), Key(n + k), Place(d, k))
  }

  ghost predicate NoStray(body: string) {
    NoStrayFrom(Parse(body), 0)
  }

  lemma NoStrayStep(d: Doc, n: nat)
    requires d.Fence?
    ensures NoStrayFrom(d, n) <==> Alone(Partial(d, n, n), Key(n), |d.text|) && NoStrayFrom(Settled(d), n + 1)
  {
    hide Key, Partial, Alone;
    var e := Settled(d);
    SettledIs(d, n, n + 1);
    assert |Blocks(d)| == 1 + |Blocks(e)| && Place(d, 0) == |d.text|;
    forall k | 0 <= k < |Blocks(e)|
      ensures Partial(e, n + 1, n + 1 + k) == Partial(d, n, n + 1 + k) && Place(d, 1 + k) == Place(e, k)
    {
      SettledIs(d, n, n + 1 + k);
      PrependPlace(d.text + d.block, d.rest, k);
    }
    if NoStrayFrom(d, n) {
      forall k | 0 <= k < |Blocks(e)| ensures Alone(Partial(e, n + 1, n + 1 + k), Key(n + 1 + k), Place(e, k)) {
        assert Alone(Partial(d, n, n + (1 + k)), Key(n + (1 + k)), Place(d, 1 + k));
      }
    }
    if NoStrayFrom(e, n + 1) && Alone(Partial(d, n, n), Key(n), |d.text|) {
      forall k | 0 <= k < |Blocks(d)| ensures Alone(Partial(d, n, n + k), Key(n + k), Place(d, k)) {
        if k > 0 {
          assert Alone(Partial(e, n + 1, n + 1 + (k - 1)), Key(n + 1 + (k - 1)), Place(e, k - 1));
        }
      }
    }
  }

  lemma PrependPlace(s: string, d: Doc, k: nat)
    requires k < |Blocks(d)|
    ensures |Blocks(Prepend(s, d))| == |Blocks(d)| && Place(Prepend(s, d), k) == |s| + Place(d, k)
  {
  }

  /** The original comes back exactly if no key strays. */
  lemma {:induction false} RestoresExactly(d: Doc, n: nat, blocks: seq<string>)
    requires AllTicked(blocks) && Fits(d, n, blocks) && n + |Blocks(d)| == |blocks|
    ensures var restored := RestoreFrom(Partial(d, n, 0), blocks, n);
            if NoStrayFrom(d, n) then restored == Original(d) else Diverges(restored, Original(d))
    decreases |blocks| - n
  {
    hide Key, Replace, Partial, Original, StandsAt, IsStub, AllTicked, StopsIn, Fits, Diverges, Alone;
    if d.End? {
      EndIs(d.text, n);
    } else {
      NoStub();
      assert Partial(d, n, 0) + "" == Partial(d, n, 0);
      NoneRestored(d, n, n);
      NoStrayStep(d, n);
      var o := OwnKey(d, n, "", blocks);
      match o
      case Fine(e) =>
        SettledIs(d, n, n + 1);
        assert Partial(e, n + 1, 0) + "" == Partial(e, n + 1, 0);
        RestoresExactly(e, n + 1, blocks);
      case Stray(e, s, rest) =>
        Restoring(e, n + 1, s, blocks, n + 1);
        StrayDiverges(d, e, n + 1, s, rest, blocks, n + 1);
    }
  }

  lemma {:induction false} ScanTicked(s: string, start: nat, i: nat)
    requires start <= i <= |s|
    ensures AllTicked(Blocks(Scan(s, start, i)))
    decreases |s| - i
  {
    if |s| < i + 3 {
    } else if s[i..i + 3] == TICKS && FindTicks(s, i + 3).Some? {
      var end := FindTicks(s, i + 3).value + 3;
      ScanFence(s, start, i, end);
      assert s[i..end][0] == s[i..i + 3][0] == '`';
      ScanTicked(s, end, end);
    } else {
      ScanTicked(s, start, i + 1);
    }
  }

  lemma ParseIs(body: string)
    ensures Original(Parse(body)) == body && AllTicked(Blocks(Parse(body))) && Fits(Parse(body), 0, Blocks(Parse(body)))
  {
    hide Scan;
    ScanOriginal(body, 0, 0);
    ScanTicked(body, 0, 0);
    assert body[0..] == body;
    var blocks := Blocks(Parse(body));
    assert blocks[0..0 + |blocks|] == blocks;
  }

  /** The exact condition for one text: what comes back is the original, or differs from it in a visible character. */
  lemma RestoredExactly(body: string)
    ensures var restored := Restore(Partial(Parse(body), 0, 0), Blocks(Parse(body)));
            if NoStray(body) then restored == body else Diverges(restored, body)
  {
    hide Parse, Partial, Blocks, AllTicked, Fits, NoStrayFrom, Diverges;
    ParseIs(body);
    RestoresExactly(Parse(body), 0, Blocks(Parse(body)));
  }

  /** A body that nowhere contains the marker has no stray key. */
  lemma CleanHasNoStray(body: string)
    requires Clean(body)
    ensures NoStray(body)
  {
    hide Clean, Scan, Partial, Original, Diverges, NoStrayFrom, Blocks;
    ScanClean(body, 0, 0);
    ParseIs(body);
    RestoreDoc(Parse(body), 0, Blocks(Parse(body)), 0);
    RestoredExactly(body);
    if !NoStray(body) {
      DivergesApart(body, body);
    }
  }

  // ------------------------------------------------------ sections

  lemma PlainCut(text: string, follow: string, x: string, y: string)
    requires text + follow == x + "\n" + y && |x| < |text|
    ensures text == x + "\n" + text[|x| + 1..] && text[|x| + 1..] + follow == y
    ensures text[0..|x|] == x && text[|x| + 1..|text|] == text[|x| + 1..]
  {
    var whole := x + "\n" + y;
    assert text == whole[..|text|] && follow == whole[|text|..];
    assert whole[..|x|] == x && whole[|x| + 1..] == y;
  }

  /** A line break before the end of the first plain text divides that text. */
  lemma CutText(d: Doc, n: nat, x: string, y: string) returns (after: Doc)
    requires Partial(d, n, 0) == x + "\n" + y && |x| < |d.text|
    ensures Partial(End(x), n, 0) == x && Partial(after, n + |Blocks(End(x))|, 0) == y
    ensures Original(d) == Original(End(x)) + "\n" + Original(after)
    ensures Blocks(d) == Blocks(End(x)) + Blocks(after)
  {
    hide Key;
    after := d.(text := d.text[|x| + 1..]);
    var follow := if d.End? then "" else Key(n) + Partial(d.rest, n + 1, 0);
    assert Partial(d, n, 0) == d.text + follow;
    PlainCut(d.text, follow, x, y);
    assert Partial(after, n, 0) == after.text + follow;
    var original := if d.End? then "" else d.block + Original(d.rest);
    assert Original(d) == d.text + original && Original(after) == after.text + original;
    Associative(x + "\n", after.text, original);
  }

  lemma BreakBehind(text: string, key: string, rest: string, x: string, y: string) returns (z: string)
    requires text + key + rest == x + "\n" + y && |x| >= |text|
    requires forall i :: 0 <= i < |key| ==> key[i] != '\n'
    ensures x == text + key + z && rest == z + "\n" + y
  {
    var whole, m := text + key + rest, |text| + |key|;
    assert whole == x + "\n" + y && whole[|x|] == '\n';
    assert forall i :: |text| <= i < m ==> whole[i] == key[i - |text|];
    z := x[m..];
    assert x[..m] == whole[..m] == text + key;
    assert rest == whole[m..] == z + "\n" + y;
  }

  /** A line break behind it lies behind the placeholder too. */
  lemma CutBehind(d: Doc, n: nat, x: string, y: string) returns (z: string)
    requires Partial(d, n, 0) == x + "\n" + y && |x| >= |d.text|
    ensures d.Fence? && x == d.text + Key(n) + z && Partial(d.rest, n + 1, 0) == z + "\n" + y
  {
    hide Key;
    assert |Partial(d, n, 0)| > |d.text|;
    KeyShape(n);
    PartialFence(d.text, d.block, d.rest, n);
    z := BreakBehind(d.text, Key(n), Partial(d.rest, n + 1, 0), x, y);
  }

  lemma PartialFence(text: string, block: string, rest: Doc, n: nat)
    ensures Partial(Fence(text, block, rest), n, 0) == text + Key(n) + Partial(rest, n + 1, 0)
  {
  }

  lemma OriginalFence(d: Doc, inner: Doc, outer: Doc)
    requires d.Fence? && Original(d.rest) == Original(inner) + "\n" + Original(outer)
    ensures Original(d) == Original(Fence(d.text, d.block, inner)) + "\n" + Original(outer)
  {
    var head := d.text + d.block;
    Associative(head, Original(inner) + "\n", Original(outer));
    Associative(head, Original(inner), "\n");
  }

  lemma BlocksFence(d: Doc, inner: Doc, outer: Doc)
    requires d.Fence? && Blocks(d.rest) == Blocks(inner) + Blocks(outer)
    ensures Blocks(d) == Blocks(Fence(d.text, d.block, inner)) + Blocks(outer)
    ensures |Blocks(Fence(d.text, d.block, inner))| == 1 + |Blocks(inner)|
  {
    Associative([d.block], Blocks(inner), Blocks(outer));
  }

  /** A line break of the protected text lies in plain text, so it cuts the document between blocks. */
  lemma {:induction false} CutDoc(d: Doc, n: nat, x: string, y: string) returns (before: Doc, after: Doc)
    requires Partial(d, n, 0) == x + "\n" + y
    ensures Partial(before, n, 0) == x && Partial(after, n + |Blocks(before)|, 0) == y
    ensures Original(d) == Original(before) + "\n" + Original(after)
    ensures Blocks(d) == Blocks(before) + Blocks(after)
    decreases d
  {
    if |x| < |d.text| {
      hide *;
      before := End(x);
      after := CutText(d, n, x, y);
    } else {
      hide *;
      var z := CutBehind(d, n, x, y);
      var inner, outer := CutDoc(d.rest, n + 1, z, y);
      PartialFence(d.text, d.block, inner, n);
      OriginalFence(d, inner, outer);
      BlocksFence(d, inner, outer);
      before, after := Fence(d.text, d.block, inner), outer;
    }
  }

  function RestoreEach(sections: seq<string>, blocks: seq<string>): (restored: seq<string>)
    ensures |restored| == |sections|
    ensures forall i :: 0 <= i < |sections| ==> restored[i] == Restore(sections[i], blocks)
  {
    Map(s => Restore(s, blocks), sections)
  }

  /** Keys have no line break, so restoring each part restores the whole. */
  lemma {:induction false} RestoreJoin(sections: seq<string>, blocks: seq<string>)
    requires sections != []
    ensures Join("\n", RestoreEach(sections, blocks)) == Restore(Join("\n", sections), blocks)
  {
    hide RestoreFrom;
    var restored := RestoreEach(sections, blocks);
    if |sections| > 1 {
      RestoreJoin(sections[1..], blocks);
      assert restored[1..] == RestoreEach(sections[1..], blocks);
      RestoreApart(sections[0], '\n', Join("\n", sections[1..]), blocks, 0);
    }
  }

  /** Each text is the one meant, or differs from it in some place. */
  ghost predicate SameOrDiverging(a: seq<string>, b: seq<string>) {
    |a| == |b| && forall i :: 0 <= i < |a| ==> a[i] == b[i] || Diverges(a[i], b[i])
  }

  lemma {:induction false} CutSections(d: Doc, n: nat, blocks: seq<string>, sections: seq<string>)
    returns (docs: seq<Doc>)
    requires sections != [] && Join("\n", sections) == Partial(d, n, 0)
    requires AllTicked(blocks) && Fits(d, n, blocks)
    ensures |docs| == |sections|
    ensures SameOrDiverging(RestoreEach(sections, blocks), Map(Original, docs))
    ensures Join("\n", Map(Original, docs)) == Original(d)
    ensures Concat(Map(Blocks, docs)) == Blocks(d)
    decreases |sections|
  {
    hide Partial, Original, Blocks, Fits, AllTicked, Diverges, Restore, Join, Concat;
    JoinIs(sections);
    if |sections| == 1 {
      docs := [d];
      SectionRestored(d, n, blocks);
      OneDoc(d);
    } else {
      var before, after := CutDoc(d, n, sections[0], Join("\n", sections[1..]));
      CutFits(d, before, after, n, blocks);
      SectionRestored(before, n, blocks);
      var rest := CutSections(after, n + |Blocks(before)|, blocks, sections[1..]);
      docs := [before] + rest;
      MoreDocs(before, rest);
      forall i | 0 <= i < |sections|
        ensures var r, o := Restore(sections[i], blocks), Map(Original, docs)[i]; r == o || Diverges(r, o)
      {
        if i > 0 {
          assert RestoreEach(sections[1..], blocks)[i - 1] == Restore(sections[i], blocks);
        }
      }
    }
  }

  lemma JoinIs(sections: seq<string>)
    requires sections != []
    ensures Join("\n", sections)
         == if |sections| == 1 then sections[0] else sections[0] + "\n" + Join("\n", sections[1..])
  {
  }

  lemma OneDoc(d: Doc)
    ensures Map(Original, [d]) == [Original(d)] && Join("\n", Map(Original, [d])) == Original(d)
    ensures Concat(Map(Blocks, [d])) == Blocks(d)
  {
    assert Map(Original, [d]) == [Original(d)] && Map(Blocks, [d]) == [Blocks(d)];
    ConcatOne(Blocks(d));
  }

  lemma MoreDocs(d: Doc, rest: seq<Doc>)
    requires rest != []
    ensures Map(Original, [d] + rest) == [Original(d)] + Map(Original, rest)
    ensures Join("\n", Map(Original, [d] + rest)) == Original(d) + "\n" + Join("\n", Map(Original, rest))
    ensures Concat(Map(Blocks, [d] + rest)) == Blocks(d) + Concat(Map(Blocks, rest))
  {
    hide Original, Blocks, Join, Concat;
    var blocks := Map(Blocks, rest);
    assert Map(Original, [d] + rest) == [Original(d)] + Map(Original, rest);
    assert Map(Blocks, [d] + rest) == [Blocks(d)] + blocks;
    ConcatAppend([Blocks(d)], blocks);
    ConcatOne(Blocks(d));
    JoinCons("\n", Original(d), Map(Original, rest));
  }

  lemma SectionRestored(d: Doc, n: nat, blocks: seq<string>)
    requires AllTicked(blocks) && Fits(d, n, blocks)
    ensures var r := Restore(Partial(d, n, 0), blocks); r == Original(d) || Diverges(r, Original(d))
  {
    hide RestoreFrom, Diverges, Partial, Original, AllTicked;
    NoStub();
    assert Partial(d, n, 0) + "" == Partial(d, n, 0) && Original(d) + "" == Original(d);
    Restoring(d, n, "", blocks, 0);
  }

  lemma CutFits(d: Doc, before: Doc, after: Doc, n: nat, blocks: seq<string>)
    requires Fits(d, n, blocks) && Blocks(d) == Blocks(before) + Blocks(after)
    ensures Fits(before, n, blocks) && Fits(after, n + |Blocks(before)|, blocks)
  {
    hide Blocks;
    SliceOfBoth(blocks, n, Blocks(before), Blocks(after));
  }

  lemma SliceOfBoth<T>(s: seq<T>, n: nat, a: seq<T>, b: seq<T>)
    requires n + |a| + |b| <= |s| && s[n..n + |a| + |b|] == a + b
    ensures s[n..n + |a|] == a && s[n + |a|..n + |a| + |b|] == b
  {
    var both := s[n..n + |a| + |b|];
    assert both[..|a|] == a && both[|a|..] == b;
    assert s[n..n + |a|] == both[..|a|] && s[n + |a|..n + |a| + |b|] == both[|a|..];
  }

  /** Texts that join to what they should join to are the texts meant, if each is or differs in some place. */
  lemma {:induction false} JoinedAlike(a: seq<string>, b: seq<string>)
    requires a != [] && SameOrDiverging(a, b) && Join("\n", a) == Join("\n", b)
    ensures a == b
  {
    hide Diverges, Join;
    JoinIs(a);
    JoinIs(b);
    if a[0] != b[0] {
      var more, all := if |a| == 1 then "" else "\n" + Join("\n", a[1..]), Join("\n", b);
      assert all[..|b[0]|] == b[0];
      DivergesFurther(a[0], b[0], more, all);
      assert a[0] + more == all;
      DivergesApart(all, all);
      assert false;
    }
    if |a| > 1 {
      assert Join("\n", a[1..]) == Join("\n", a)[|a[0]| + 1..];
      assert Join("\n", b[1..]) == Join("\n", b)[|b[0]| + 1..];
      JoinedAlike(a[1..], b[1..]);
    }
  }

  /**
   * However the protected text is divided at line breaks, restoring every key in each part gives
   * parts that join to the original text exactly if no key strays; otherwise they differ from it in a
   * character that is not a space.
   */
  lemma SectionsExactly(body: string, sections: seq<string>)
    requires sections != [] && Join("\n", sections) == Partial(Parse(body), 0, 0)
    ensures var restored := Join("\n", RestoreEach(sections, Blocks(Parse(body))));
            && (restored == body <==> NoStray(body))
            && (NonSpace(restored) == NonSpace(body) <==> NoStray(body))
  {
    hide Parse, Partial, Blocks, NoStray, Diverges, RestoreFrom;
    RestoredExactly(body);
    RestoreJoin(sections, Blocks(Parse(body)));
    if !NoStray(body) {
      DivergesApart(Restore(Join("\n", sections), Blocks(Parse(body))), body);
    }
  }

  /** Then each block is whole in exactly one part, in order. */
  lemma FenceRoundTrip(body: string, sections: seq<string>) returns (docs: seq<Doc>)
    requires NoStray(body) && sections != [] && Join("\n", sections) == Partial(Parse(body), 0, 0)
    ensures |docs| == |sections|
    ensures forall i :: 0 <= i < |sections| ==> Restore(sections[i], Blocks(Parse(body))) == Original(docs[i])
    ensures Join("\n", Map(Original, docs)) == body
    ensures Concat(Map(Blocks, docs)) == Blocks(Parse(body))
  {
    hide Parse, Partial, Blocks, NoStray, Diverges, Restore, Original, SameOrDiverging, Join, Concat, Fits, AllTicked;
    var blocks := Blocks(Parse(body));
    ParseIs(body);
    docs := CutSections(Parse(body), 0, blocks, sections);
    SectionsExactly(body, sections);
    JoinedAlike(RestoreEach(sections, blocks), Map(Original, docs));
    assert forall i :: 0 <= i < |sections| ==> RestoreEach(sections, blocks)[i] == Map(Original, docs)[i];
  }

  lemma {:induction false} ScanSkip(s: string, start: nat, i: nat, j: nat)
    requires start <= i <= j && j + 3 <= |s| && forall m :: i <= m < j ==> s[m] != '`'
    ensures Scan(s, start, i) == Scan(s, start, j)
    decreases j - i
  {
    if i < j {
      assert s[i..i + 3][0] == s[i] && TICKS[0] == '`';
      ScanSkip(s, start, i + 1, j);
    }
  }

  lemma ParseOneFence(body: string, n: nat)
    requires |body| == n + 7 && body[n..] == "```x```" && forall m :: 0 <= m < n ==> body[m] != '`'
    ensures Parse(body) == Fence(body[..n], "```x```", End(""))
  {
    var tail := body[n..];
    assert Scan(body, n + 7, n + 7) == End("");
    hide Scan, FindTicks;
    ScanSkip(body, 0, 0, n);
    assert body[n..n + 3] == tail[..3] == TICKS && body[n..n + 7] == tail;
    assert body[n + 3..] == tail[3..] == "x```";
    FindAfterX(body, n + 3);
    ScanFence(body, 0, n, n + 7);
    assert body[0..n] == body[..n];
  }

  lemma FindAfterX(s: string, i: nat)
    requires |s| == i + 4 && s[i..] == "x```"
    ensures FindTicks(s, i) == Some(i + 1)
  {
    assert s[i..i + 3][0] == s[i..][0] == 'x' && TICKS[0] == '`';
    assert s[i + 1..i + 4] == s[i..][1..4] == TICKS;
  }

  /** The key stands in one of the plain stretches. */
  ghost predicate TextHolds(d: Doc, key: string) {
    (exists p: nat :: StandsAt(d.text, key, p)) || (d.Fence? && TextHolds(d.rest, key))
  }

  lemma StandsInside(a: string, s: string, b: string, key: string, p: nat)
    requires StandsAt(s, key, p)
    ensures StandsAt(a + s + b, key, |a| + p)
  {
    assert (a + s + b)[|a| + p..] == s[p..] + b;
    assert |key| <= |s[p..]| && (s[p..] + b)[..|key|] == s[p..][..|key|];
  }

  /** What holds of the first plain stretch, or of the rest, holds of the document. */
  lemma TextStands(d: Doc, n: nat, j: nat, key: string, p: nat)
    requires StandsAt(d.text, key, p)
    ensures StandsAt(Partial(d, n, j), key, p)
  {
    hide Item, StandsAt;
    var behind := if d.End? then "" else Item(d.block, n, j) + Partial(d.rest, n + 1, j);
    StandsInside("", d.text, behind, key, p);
    assert Partial(d, n, j) == "" + d.text + behind;
  }

  lemma RestStands(d: Doc, n: nat, j: nat, key: string, p: nat)
    requires d.Fence? && StandsAt(Partial(d.rest, n + 1, j), key, p)
    ensures StandsAt(Partial(d, n, j), key, |d.text| + |Item(d.block, n, j)| + p)
  {
    hide Item, StandsAt;
    var head := d.text + Item(d.block, n, j);
    StandsInside(head, Partial(d.rest, n + 1, j), "", key, p);
    assert Partial(d, n, j) == head + Partial(d.rest, n + 1, j) + "";
  }

  lemma {:induction false} HeldSomewhere(d: Doc, n: nat, j: nat, key: string) returns (p: nat)
    requires TextHolds(d, key)
    ensures StandsAt(Partial(d, n, j), key, p)
  {
    hide Item, StandsAt, Partial;
    if q: nat :| StandsAt(d.text, key, q) {
      TextStands(d, n, j, key, q);
      p := q;
    } else {
      var q := HeldSomewhere(d.rest, n + 1, j, key);
      RestStands(d, n, j, key, q);
      p := |d.text| + |Item(d.block, n, j)| + q;
    }
  }

  lemma {:induction false} HeldElsewhere(d: Doc, n: nat, k: nat, key: string) returns (p: nat)
    requires TextHolds(d, key) && k < |Blocks(d)| && key != ""
    ensures StandsAt(Partial(d, n, n + k), key, p)
    ensures p < Place(d, k) || p >= Place(d, k) + |Key(n + k)|
  {
    hide Key, StandsAt, Partial;
    if q: nat :| StandsAt(d.text, key, q) {
      AtMost(d.text, key, q);
      TextStands(d, n, n + k, key, q);
      p := q;
    } else {
      var q;
      if k == 0 {
        q := HeldSomewhere(d.rest, n + 1, n + k, key);
      } else {
        q := HeldElsewhere(d.rest, n + 1, k - 1, key);
      }
      RestStands(d, n, n + k, key, q);
      p := |d.text| + |Item(d.block, n, n + k)| + q;
    }
  }

  lemma AtMost(s: string, key: string, p: nat)
    requires StandsAt(s, key, p) && key != ""
    ensures p < |s|
  {
  }

  /** Whenever the key of one of its blocks already stands in the plain text of a body, the body does not come back. */
  lemma KeyInTextStrays(body: string, k: nat)
    requires k < |Blocks(Parse(body))| && TextHolds(Parse(body), Key(k))
    ensures !NoStray(body) && Restore(Partial(Parse(body), 0, 0), Blocks(Parse(body))) != body
  {
    hide Parse, Key, Partial, Blocks, Restore, TextHolds, StandsAt, Place;
    RestoredExactly(body);
    var p := HeldElsewhere(Parse(body), 0, k, Key(k));
    assert !Alone(Partial(Parse(body), 0, 0 + k), Key(0 + k), Place(Parse(body), k));
    if Diverges(body, body) {
      DivergesApart(body, body);
    }
  }

  /** One such body: a placeholder and one block. */
  lemma RoundTripNeedsCleanText(body: string)
    requires body == Key(0) + "```x```"
    ensures !Clean(body) && Restore(Partial(Parse(body), 0, 0), Blocks(Parse(body))) != body
  {
    var key, block := Key(0), "```x```";
    KeyShape(0);
    assert MarkedAt(body, 2) by {
      assert body[2..13] == MARK[2..] == "CODE_BLOCK_";
    }
    assert body[..|key|] == key && body[|key|..] == block;
    ParseOneFence(body, |key|);
    PartialFence(key, block, End(""), 0);
    TakeKey(key, 0, block);
    var restored := Replace(key + key, key, block);
    assert Partial(End(""), 1, 0) == "" && key + key + "" == key + key;
    assert Blocks(Parse(body)) == [block];
    assert Restore(key + key, [block]) == RestoreFrom(restored, [block], 1) == restored;
    assert restored[0] == '`' && body[0] == key[0] == '_';
  }
}
