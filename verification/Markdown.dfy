/**
 * The markdown front end: fenced blocks are protected, the text is split at H1 and H2 headings, the
 * blocks are restored, tiny sections are merged into the next large one, and each text is chunked.
 */
module Markdown {
  import opened Sequences
  import opened Text
  import opened Fences
  import opened Hierarchy

  const MIN_SECTION_TOKENS := 100

  datatype Section = Section(text: string, crumb: seq<string>)

  function Lines(s: string): (lines: seq<string>)
    ensures lines != []
  {
    Split(s, "\n")
  }

  function TextOf(s: Section): string {
    s.text
  }

  // ------------------------------------------------------ headings

  function Hashes(line: string): (h: nat)
    ensures h <= |line|
  {
    if line != "" && line[0] == '#' then 1 + Hashes(line[1..]) else 0
  }

  /** The level of a heading line; 0 for any other line. */
  function Level(line: string): (h: nat)
    ensures h <= |line|
  {
    var h := Hashes(line);
    if 1 <= h <= 6 && h + 2 <= |line| && IsSpace(line[h]) then h else 0
  }

  function Title(line: string): string {
    Strip(line[Level(line)..])
  }

  predicate Opens(line: string) {
    Level(line) == 1 || Level(line) == 2
  }

  /** The heading pattern: h number signs, at least one space up to k, and at least one more character. */
  ghost predicate HeadingMatch(line: string, h: nat, k: nat) {
    && 1 <= h <= 6 && h < k < |line|
    && (forall i :: 0 <= i < h ==> line[i] == '#')
    && (forall i :: h <= i < k ==> IsSpace(line[i]))
  }

  lemma {:induction false} HashesAre(line: string, h: nat)
    requires h < |line| && line[h] != '#' && forall i :: 0 <= i < h ==> line[i] == '#'
    ensures Hashes(line) == h
  {
    if h > 0 {
      HashesAre(line[1..], h - 1);
    }
  }

  lemma {:induction false} HashesLead(line: string, i: nat)
    requires i < Hashes(line)
    ensures line[i] == '#'
  {
    if i > 0 {
      HashesLead(line[1..], i - 1);
    }
  }

  /** A line is a heading of level h exactly when the pattern matches it with h number signs. */
  lemma LevelIsMatch(line: string, h: nat)
    requires h > 0
    ensures Level(line) == h <==> exists k: nat :: HeadingMatch(line, h, k)
  {
    if Level(line) == h {
      forall i | 0 <= i < h ensures line[i] == '#' {
        HashesLead(line, i);
      }
      assert HeadingMatch(line, h, h + 1);
    }
    forall k: nat | HeadingMatch(line, h, k) ensures Level(line) == h {
      assert IsSpace(line[h]);
      HashesAre(line, h);
    }
  }

  // ------------------------------------------------------ sections

  /** The first line at or after a that opens a section. */
  function NextOpening(lines: seq<string>, a: nat): (e: nat)
    requires a <= |lines|
    ensures a <= e <= |lines|
    ensures forall j :: a <= j < e ==> !Opens(lines[j])
    ensures e < |lines| ==> Opens(lines[e])
    decreases |lines| - a
  {
    if a < |lines| && !Opens(lines[a]) then NextOpening(lines, a + 1) else a
  }

  /** The title of the last H1 among the first n lines. */
  function LastH1(lines: seq<string>, n: nat): string
    requires n <= |lines|
  {
    if n == 0 then ""
    else if Level(lines[n - 1]) == 1 then Title(lines[n - 1])
    else LastH1(lines, n - 1)
  }

  /** The breadcrumb of the section that line a starts. */
  function Breadcrumb(lines: seq<string>, a: nat): seq<string>
    requires a < |lines|
  {
    var line := lines[a];
    if Level(line) == 1 then [Title(line)]
    else if Level(line) == 2 then
      if LastH1(lines, a) != "" then [LastH1(lines, a), Title(line)] else [Title(line)]
    else []
  }

  function SectionAt(lines: seq<string>, a: nat): Section
    requires a < |lines|
  {
    Section(Join("\n", lines[a..NextOpening(lines, a + 1)]), Breadcrumb(lines, a))
  }

  /** The sections of the lines from a on. */
  function Sections(lines: seq<string>, a: nat): seq<Section>
    requires a <= |lines|
    decreases |lines| - a
  {
    if a == |lines| then [] else [SectionAt(lines, a)] + Sections(lines, NextOpening(lines, a + 1))
  }

  method SplitByHeadings(text: string) returns (sections: seq<Section>)
    ensures sections == Sections(Lines(text), 0)
  {
    hide SectionAt, Sections, Opens, Title, Lines;
    var lines := Lines(text);
    sections := [];
    var current: seq<string>, crumb: seq<string>, h1 := [], [], "";
    ghost var a := 0;
    for i := 0 to |lines|
      invariant a <= i && (a == i ==> i == 0) && current == lines[a..i]
      invariant crumb == if i == 0 then [] else Breadcrumb(lines, a)
      invariant h1 == LastH1(lines, i)
      invariant forall j :: a < j < i ==> !Opens(lines[j])
      invariant sections + Sections(lines, a) == Sections(lines, 0)
    {
      var line := lines[i];
      OpensByLevel(line);
      if Level(line) == 1 {
        if current != [] {
          CloseSection(lines, sections, a, i, crumb);
          sections := sections + [Section(Join("\n", current), crumb)];
          current, a := [], i;
        }
        h1 := Title(line);
        crumb := [h1];
      } else if Level(line) == 2 {
        if current != [] {
          CloseSection(lines, sections, a, i, crumb);
          sections := sections + [Section(Join("\n", current), crumb)];
          current, a := [], i;
        }
        crumb := if h1 != "" then [h1, Title(line)] else [Title(line)];
      }
      current := current + [line];
    }
    CloseSection(lines, sections, a, |lines|, crumb);
    sections := sections + [Section(Join("\n", current), crumb)];
    NoSections(lines);
    if sections == [] {
      sections := [Section(text, [])];
    }
  }

  lemma OpensByLevel(line: string)
    ensures Opens(line) <==> Level(line) == 1 || Level(line) == 2
  {
  }

  lemma NoSections(lines: seq<string>)
    ensures Sections(lines, |lines|) == []
  {
  }

  lemma CloseSection(lines: seq<string>, sections: seq<Section>, a: nat, i: nat, crumb: seq<string>)
    requires a < i <= |lines| && (i < |lines| ==> Opens(lines[i]))
    requires forall j :: a < j < i ==> !Opens(lines[j])
    requires crumb == Breadcrumb(lines, a)
    ensures sections + Sections(lines, a) == (sections + [Section(Join("\n", lines[a..i]), crumb)]) + Sections(lines, i)
  {
    hide Opens, Join, Breadcrumb;
    assert NextOpening(lines, a + 1) == i;
    Associative(sections, [SectionAt(lines, a)], Sections(lines, i));
  }

  // ------------------------------------------------------ what the sections are

  /** Only the first line of a section opens one, and it does unless the section is the first. */
  ghost predicate IsSection(text: string, first: bool) {
    && (first || 1 <= Level(Lines(text)[0]) <= 2)
    && forall j :: 0 < j < |Lines(text)| ==> !(1 <= Level(Lines(text)[j]) <= 2)
  }

  ghost predicate IsSectioning(texts: seq<string>, text: string) {
    && texts != [] && Join("\n", texts) == text
    && forall i :: 0 <= i < |texts| ==> IsSection(texts[i], i == 0)
  }

  lemma SplitStep(s: string, start: nat, i: nat)
    requires start <= i <= |s|
    ensures SplitFrom(s, "\n", start, i)
         == if i == |s| then [s[start..i]]
            else if s[i] == '\n' then [s[start..i]] + SplitFrom(s, "\n", i + 1, i + 1)
            else SplitFrom(s, "\n", start, i + 1)
  {
    if i == |s| {
      assert s[start..] == s[start..i];
    } else {
      assert s[i..i + 1] == [s[i]] && "\n" == ['\n'];
    }
  }

  lemma {:induction false} SplitFromShift(s: string, t: string, d: nat, start: nat, i: nat)
    requires d <= start <= i <= |s| && t == s[d..]
    ensures SplitFrom(s, "\n", start, i) == SplitFrom(t, "\n", start - d, i - d)
    decreases |s| - i
  {
    hide SplitFrom;
    SplitStep(s, start, i);
    SplitStep(t, start - d, i - d);
    assert t[start - d..i - d] == s[start..i];
    if i < |s| {
      assert t[i - d] == s[i];
      SplitFromShift(s, t, d, if s[i] == '\n' then i + 1 else start, i + 1);
    }
  }

  lemma {:induction false} SplitFromAppend(a: string, b: string, s: string, start: nat, i: nat)
    requires start <= i <= |a| && s == a + "\n" + b
    ensures SplitFrom(s, "\n", start, i) == SplitFrom(a, "\n", start, i) + Lines(b)
    decreases |a| - i
  {
    hide SplitFrom;
    SplitStep(s, start, i);
    SplitStep(a, start, i);
    assert s[start..i] == a[start..i];
    if i == |a| {
      assert s[i] == '\n' && s[i + 1..] == b;
      SplitFromShift(s, b, i + 1, i + 1, i + 1);
    } else {
      assert s[i] == a[i];
      SplitFromAppend(a, b, s, if a[i] == '\n' then i + 1 else start, i + 1);
      Associative([a[start..i]], SplitFrom(a, "\n", i + 1, i + 1), Lines(b));
    }
  }

  lemma {:induction false} LinesOfJoin(parts: seq<string>)
    requires parts != []
    ensures Lines(Join("\n", parts)) == Concat(Map(Lines, parts))
  {
    if |parts| == 1 {
      assert Map(Lines, parts) == [Lines(parts[0])];
      ConcatOne(Lines(parts[0]));
    } else {
      hide Split;
      LinesOfJoin(parts[1..]);
      LinesAppend(parts[0], Join("\n", parts[1..]));
      assert Map(Lines, parts) == [Lines(parts[0])] + Map(Lines, parts[1..]);
    }
  }

  lemma LinesAppend(a: string, b: string)
    ensures Lines(a + "\n" + b) == Lines(a) + Lines(b)
  {
    SplitFromAppend(a, b, a + "\n" + b, 0, 0);
  }

  lemma {:induction false} PartsAreLines(s: string, start: nat, i: nat, k: nat)
    requires start <= i <= |s| && k < |SplitFrom(s, "\n", start, i)|
    requires forall m :: start <= m < i ==> s[m] != '\n'
    ensures '\n' !in SplitFrom(s, "\n", start, i)[k]
    decreases |s| - i
  {
    hide SplitFrom;
    SplitStep(s, start, i);
    if i < |s| {
      if s[i] == '\n' {
        if k > 0 {
          PartsAreLines(s, i + 1, i + 1, k - 1);
        }
      } else {
        PartsAreLines(s, start, i + 1, k);
      }
    }
  }

  lemma {:induction false} OneLine(line: string, i: nat)
    requires i <= |line| && '\n' !in line
    ensures SplitFrom(line, "\n", 0, i) == [line]
    decreases |line| - i
  {
    hide SplitFrom;
    SplitStep(line, 0, i);
    if i < |line| {
      OneLine(line, i + 1);
    } else {
      assert line[0..i] == line;
    }
  }

  /** The lines of some joined lines of a text are those lines. */
  lemma LinesOfLines(text: string, a: nat, e: nat)
    requires a < e <= |Lines(text)|
    ensures Lines(Join("\n", Lines(text)[a..e])) == Lines(text)[a..e]
  {
    hide Join;
    var part := Lines(text)[a..e];
    LinesOfJoin(part);
    forall k | 0 <= k < |part| ensures Lines(part[k]) == [part[k]] {
      PartsAreLines(text, 0, 0, a + k);
      OneLine(part[k], 0);
    }
    ConcatOfOnes(part);
  }

  lemma {:induction false} ConcatOfOnes(part: seq<string>)
    requires forall k :: 0 <= k < |part| ==> Lines(part[k]) == [part[k]]
    ensures Concat(Map(Lines, part)) == part
  {
    hide Lines;
    if part != [] {
      ConcatOfOnes(part[1..]);
      assert Map(Lines, part) == [[part[0]]] + Map(Lines, part[1..]);
    }
  }

  lemma SectionTexts(lines: seq<string>, a: nat, e: nat)
    requires a < |lines| && e == NextOpening(lines, a + 1)
    ensures SectionAt(lines, a).text == Join("\n", lines[a..e])
    ensures Map(TextOf, Sections(lines, a)) == [Join("\n", lines[a..e])] + Map(TextOf, Sections(lines, e))
  {
    hide Join;
  }

  lemma {:induction false} SectionsFrom(text: string, a: nat)
    requires a < |Lines(text)| && (a > 0 ==> Opens(Lines(text)[a]))
    ensures
      var texts := Map(TextOf, Sections(Lines(text), a));
      && texts != []
      && Join("\n", texts) == Join("\n", Lines(text)[a..])
      && (forall i :: 0 <= i < |texts| ==> IsSection(texts[i], a == 0 && i == 0))
    decreases |Lines(text)| - a
  {
    hide Opens, Lines, IsSection, Join, Sections, SectionAt;
    var lines := Lines(text);
    var e := NextOpening(lines, a + 1);
    var first := Join("\n", lines[a..e]);
    SectionTexts(lines, a, e);
    AtIsSection(text, a);
    if e < |lines| {
      SectionsFrom(text, e);
      JoinCons("\n", first, Map(TextOf, Sections(lines, e)));
      assert lines[a..] == lines[a..e] + lines[e..];
      JoinAppend("\n", lines[a..e], lines[e..]);
    } else {
      assert lines[a..e] == lines[a..];
      NoSections(lines);
      assert Map(TextOf, Sections(lines, a)) == [first];
      JoinOne("\n", first);
    }
  }

  lemma AtIsSection(text: string, a: nat)
    requires a < |Lines(text)| && (a > 0 ==> Opens(Lines(text)[a]))
    ensures IsSection(SectionAt(Lines(text), a).text, a == 0)
  {
    hide Level, Lines, Join;
    LinesOfLines(text, a, NextOpening(Lines(text), a + 1));
  }

  lemma SectionsAreSectioning(text: string)
    ensures IsSectioning(Map(TextOf, Sections(Lines(text), 0)), text)
  {
    hide IsSection, Sections, Join, Lines;
    SectionsFrom(text, 0);
    assert Lines(text)[0..] == Lines(text);
    JoinedLines(text);
  }

  lemma JoinedLines(text: string)
    ensures Join("\n", Lines(text)) == text
  {
    SplitJoins(text, "\n");
  }

  lemma {:induction false} SectioningFrom(texts: seq<string>, lines: seq<string>, a: nat)
    requires a <= |lines| && Concat(Map(Lines, texts)) == lines[a..]
    requires forall i :: 0 <= i < |texts| ==> IsSection(texts[i], a == 0 && i == 0)
    ensures Map(TextOf, Sections(lines, a)) == texts
    decreases |texts|
  {
    hide Opens, Lines, IsSection, Join, NextOpening, Sections, SectionAt;
    if texts == [] {
      NoSections(lines);
    } else {
      var g, rest := Lines(texts[0]), texts[1..];
      MapCons(texts);
      CutAt(lines, a, g, Concat(Map(Lines, rest)));
      var e := a + |g|;
      NextSection(texts, lines, a);
      SectioningFrom(rest, lines, e);
      JoinedLines(texts[0]);
      SectionTexts(lines, a, e);
      assert texts == [texts[0]] + rest;
    }
  }

  lemma MapCons(texts: seq<string>)
    requires texts != []
    ensures Concat(Map(Lines, texts)) == Lines(texts[0]) + Concat(Map(Lines, texts[1..]))
  {
    hide Lines;
    assert Map(Lines, texts) == [Lines(texts[0])] + Map(Lines, texts[1..]);
  }

  lemma CutAt(lines: seq<string>, a: nat, g: seq<string>, rest: seq<string>)
    requires a <= |lines| && lines[a..] == g + rest
    ensures a + |g| <= |lines| && lines[a..a + |g|] == g && lines[a + |g|..] == rest
  {
    assert lines[a..a + |g|] == lines[a..][..|g|] && lines[a + |g|..] == lines[a..][|g|..];
  }

  lemma NextSection(texts: seq<string>, lines: seq<string>, a: nat)
    requires texts != [] && a + |Lines(texts[0])| <= |lines|
    requires lines[a..a + |Lines(texts[0])|] == Lines(texts[0])
    requires lines[a + |Lines(texts[0])|..] == Concat(Map(Lines, texts[1..]))
    requires forall i :: 0 <= i < |texts| ==> IsSection(texts[i], a == 0 && i == 0)
    ensures NextOpening(lines, a + 1) == a + |Lines(texts[0])|
  {
    hide Level, Lines;
    var g, e := Lines(texts[0]), a + |Lines(texts[0])|;
    assert forall j :: a < j < e ==> lines[j] == g[j - a];
    assert IsSection(texts[0], a == 0);
    if e < |lines| {
      assert texts[1..] != [];
      assert Map(Lines, texts[1..])[0] == Lines(texts[1]);
      assert lines[e] == lines[e..][0] == Lines(texts[1])[0];
      assert IsSection(texts[1], false);
    }
  }

  /** The rule leaves no choice: no other list of texts divides the text at its H1 and H2 lines. */
  lemma SectioningIsUnique(texts: seq<string>, text: string)
    requires IsSectioning(texts, text)
    ensures texts == Map(TextOf, Sections(Lines(text), 0))
  {
    hide Lines, Sections, IsSection;
    LinesOfJoin(texts);
    assert Lines(text)[0..] == Lines(text);
    SectioningFrom(texts, Lines(text), 0);
  }

  // ------------------------------------------------------ breadcrumbs

  /** i is the last H1 line before a. */
  predicate IsLastH1(lines: seq<string>, a: nat, i: nat)
    requires a <= |lines|
  {
    i < a && Level(lines[i]) == 1 && forall j :: i < j < a ==> Level(lines[j]) != 1
  }

  /**
   * The crumb of a section that begins at line a: the title of an H1; for an H2 its own title, behind
   * that of the last H1 before it if there is one and it is not blank; nothing for any other line.
   */
  ghost predicate IsCrumb(lines: seq<string>, a: nat, crumb: seq<string>)
    requires a < |lines|
  {
    if Level(lines[a]) == 1 then crumb == [Strip(lines[a][1..])]
    else if Level(lines[a]) == 2 then
      && ((forall i :: 0 <= i < a ==> Level(lines[i]) != 1) ==> crumb == [Strip(lines[a][2..])])
      && forall i: nat :: IsLastH1(lines, a, i) ==>
           crumb == (if Strip(lines[i][1..]) == "" then [] else [Strip(lines[i][1..])]) + [Strip(lines[a][2..])]
    else crumb == []
  }

  lemma {:induction false} NoH1(lines: seq<string>, a: nat)
    requires a <= |lines| && forall i :: 0 <= i < a ==> Level(lines[i]) != 1
    ensures LastH1(lines, a) == ""
  {
    hide Level, Title;
    if a > 0 {
      NoH1(lines, a - 1);
    }
  }

  lemma {:induction false} LastH1Is(lines: seq<string>, a: nat, i: nat)
    requires a <= |lines| && IsLastH1(lines, a, i)
    ensures LastH1(lines, a) == Title(lines[i])
  {
    hide Level, Title;
    if i < a - 1 {
      LastH1Is(lines, a - 1, i);
    }
  }

  lemma CrumbIs(lines: seq<string>, a: nat)
    requires a < |lines|
    ensures IsCrumb(lines, a, Breadcrumb(lines, a))
  {
    hide Level, Strip, LastH1;
    if forall i :: 0 <= i < a ==> Level(lines[i]) != 1 {
      NoH1(lines, a);
    }
    forall i: nat | IsLastH1(lines, a, i) ensures LastH1(lines, a) == Strip(lines[i][1..]) {
      LastH1Is(lines, a, i);
    }
  }

  /** The section holds the lines from a to e and has the crumb of line a. */
  ghost predicate Spans(lines: seq<string>, a: nat, e: nat, section: Section) {
    a < e <= |lines| && section.text == Join("\n", lines[a..e]) && IsCrumb(lines, a, section.crumb)
  }

  /** `starts` are the lines at which the sections begin, and the end. */
  ghost predicate AreStarts(starts: seq<nat>, lines: seq<string>, a: nat, sections: seq<Section>) {
    && |starts| == |sections| + 1 && starts[0] == a && starts[|sections|] == |lines|
    && forall s :: 0 <= s < |sections| ==> Spans(lines, starts[s], starts[s + 1], sections[s])
  }

  lemma MoreStarts(starts: seq<nat>, lines: seq<string>, a: nat, first: Section, sections: seq<Section>)
    requires starts != [] && AreStarts(starts, lines, starts[0], sections) && Spans(lines, a, starts[0], first)
    ensures AreStarts([a] + starts, lines, a, [first] + sections)
  {
    hide Spans;
    var all, more := [a] + starts, [first] + sections;
    forall s | 0 <= s < |more| ensures Spans(lines, all[s], all[s + 1], more[s]) {
      if s > 0 {
        assert all[s] == starts[s - 1] && all[s + 1] == starts[s] && more[s] == sections[s - 1];
      }
    }
  }

  lemma SectionSpans(lines: seq<string>, a: nat)
    requires a < |lines|
    ensures Spans(lines, a, NextOpening(lines, a + 1), SectionAt(lines, a))
  {
    hide IsCrumb, Breadcrumb, Join;
    CrumbIs(lines, a);
  }

  lemma {:induction false} CrumbsFrom(lines: seq<string>, a: nat) returns (starts: seq<nat>)
    requires a <= |lines|
    ensures AreStarts(starts, lines, a, Sections(lines, a))
    decreases |lines| - a
  {
    hide Spans, SectionAt;
    if a == |lines| {
      starts := [a];
    } else {
      var rest := CrumbsFrom(lines, NextOpening(lines, a + 1));
      SectionSpans(lines, a);
      MoreStarts(rest, lines, a, SectionAt(lines, a), Sections(lines, rest[0]));
      starts := [a] + rest;
    }
  }

  /** Every section of a text has the breadcrumb of the line at which it begins. */
  lemma CrumbsAre(text: string) returns (starts: seq<nat>)
    ensures AreStarts(starts, Lines(text), 0, Sections(Lines(text), 0))
  {
    starts := CrumbsFrom(Lines(text), 0);
  }

  // ------------------------------------------------------ tiny sections

  predicate Tiny(s: Section, count: string -> nat) {
    count(s.text) < MIN_SECTION_TOKENS
  }

  /** How many sections at the front are tiny. */
  function TinyPrefix(sections: seq<Section>, count: string -> nat): (n: nat)
    ensures n <= |sections|
    ensures forall i :: 0 <= i < n ==> Tiny(sections[i], count)
    ensures n < |sections| ==> !Tiny(sections[n], count)
  {
    if sections != [] && Tiny(sections[0], count) then 1 + TinyPrefix(sections[1..], count) else 0
  }

  /** The sections whose texts are chunked together. */
  function Runs(sections: seq<Section>, count: string -> nat): seq<seq<Section>> {
    var n := TinyPrefix(sections, count);
    if sections == [] then []
    else if n == |sections| then [sections]
    else [sections[..n + 1]] + Runs(sections[n + 1..], count)
  }

  /** Tiny sections and then one large one; only the last run may consist of tiny ones alone. */
  ghost predicate IsRun(run: seq<Section>, count: string -> nat, last: bool) {
    && run != []
    && (forall i :: 0 <= i < |run| - 1 ==> Tiny(run[i], count))
    && (last || !Tiny(run[|run| - 1], count))
  }

  ghost predicate IsRuns(runs: seq<seq<Section>>, sections: seq<Section>, count: string -> nat) {
    && Concat(runs) == sections
    && forall r :: 0 <= r < |runs| ==> IsRun(runs[r], count, r == |runs| - 1)
  }

  lemma {:induction false} RunsAreRuns(sections: seq<Section>, count: string -> nat)
    ensures IsRuns(Runs(sections, count), sections, count)
    decreases |sections|
  {
    hide Tiny;
    var n := TinyPrefix(sections, count);
    if sections == [] {
    } else if n == |sections| {
      ConcatOne(sections);
    } else {
      var rest := Runs(sections[n + 1..], count);
      RunsAreRuns(sections[n + 1..], count);
      assert IsRun(sections[..n + 1], count, false);
      assert sections == sections[..n + 1] + sections[n + 1..];
      assert ([sections[..n + 1]] + rest)[1..] == rest;
    }
  }

  lemma RunsPartition(sections: seq<Section>, count: string -> nat)
    ensures Concat(Runs(sections, count)) == sections
  {
    hide Runs, IsRun;
    RunsAreRuns(sections, count);
  }

  /** There is only one such division into runs. */
  lemma {:induction false} RunsAreUnique(runs: seq<seq<Section>>, sections: seq<Section>, count: string -> nat)
    requires IsRuns(runs, sections, count)
    ensures runs == Runs(sections, count)
    decreases |runs|
  {
    hide Tiny;
    if runs != [] {
      var first, n := runs[0], TinyPrefix(sections, count);
      assert IsRun(first, count, |runs| == 1);
      assert sections == first + Concat(runs[1..]);
      assert first == sections[..|first|] && sections[|first|..] == Concat(runs[1..]);
      assert forall i :: 0 <= i < |first| ==> sections[i] == first[i];
      assert forall r :: 1 <= r < |runs| ==> IsRun(runs[r], count, r == |runs| - 1);
      RunsAreUnique(runs[1..], sections[|first|..], count);
      assert runs == [first] + runs[1..];
      if Tiny(first[|first| - 1], count) {
        assert runs[1..] == [] && first == sections;
        assert n == |sections|;
      } else {
        assert n + 1 == |first|;
      }
    }
  }

  function RunText(run: seq<Section>): string {
    Join("\n\n", Map(TextOf, run))
  }

  /** The breadcrumb of the large section, or of the first when all are tiny. */
  function RunCrumb(run: seq<Section>, count: string -> nat): seq<string>
    requires run != []
  {
    if Tiny(run[|run| - 1], count) then run[0].crumb else run[|run| - 1].crumb
  }

  function Prefix(filename: string, crumb: seq<string>): string {
    "File: " + filename + if crumb == [] then "" else " | " + Join(" > ", crumb)
  }

  // ------------------------------------------------------ the whole front end

  function ChunkedRun(run: seq<Section>, filename: string, count: string -> nat): seq<Group> {
    if run == [] then []
    else Chunked(Strip(RunText(run)), Style("text", Prefix(filename, RunCrumb(run, count)), count), DEFAULT_LIMITS)
  }

  function ChunkedRuns(runs: seq<seq<Section>>, filename: string, count: string -> nat): seq<Group> {
    if runs == [] then [] else ChunkedRun(runs[0], filename, count) + ChunkedRuns(runs[1..], filename, count)
  }

  function RestoredSection(s: Section, blocks: seq<string>): Section {
    s.(text := Restore(s.text, blocks))
  }

  function RestoreSectionTexts(sections: seq<Section>, blocks: seq<string>): (restored: seq<Section>)
    ensures |restored| == |sections|
    ensures forall i :: 0 <= i < |sections| ==> restored[i] == RestoredSection(sections[i], blocks)
  {
    Map(s => RestoredSection(s, blocks), sections)
  }

  /** The sections of a file, with their fenced blocks back in place. */
  function RestoredSections(body: string): seq<Section> {
    RestoreSectionTexts(Sections(Lines(Partial(Parse(body), 0, 0)), 0), Blocks(Parse(body)))
  }

  /** `MarkdownChunker.chunk`, behind the front matter. */
  method ChunkMarkdown(body: string, filename: string, count: string -> nat) returns (groups: seq<Group>)
    ensures groups == ChunkedRuns(Runs(RestoredSections(body), count), filename, count)
  {
    hide *;
    var protected, blocks := Protect(body);
    var sections := SplitByHeadings(protected);
    ghost var restored := RestoreSectionTexts(sections, blocks);
    IsRestored(body, protected, blocks);
    groups := [];
    var pending: seq<Section> := [];
    assert restored[0..] == restored && pending + restored == restored;
    for i := 0 to |sections|
      invariant forall p :: 0 <= p < |pending| ==> Tiny(pending[p], count)
      invariant groups + ChunkedRuns(Runs(pending + restored[i..], count), filename, count)
             == ChunkedRuns(Runs(restored, count), filename, count)
    {
      var text := RestoreAll(sections[i].text, blocks);
      var section := Section(text, sections[i].crumb);
      IsRestoredSection(sections[i], blocks, section);
      IsTiny(section, count);
      assert restored[i..] == [section] + restored[i + 1..];
      if count(text) < MIN_SECTION_TOKENS {
        Associative(pending, [section], restored[i + 1..]);
        pending := pending + [section];
      } else {
        OneMoreRun(pending, section, restored[i + 1..], count, filename);
        var results := ChunkLarge(pending, section, filename, count);
        Associative(groups, results, ChunkedRuns(Runs(restored[i + 1..], count), filename, count));
        groups := groups + results;
        pending := [];
        assert pending + restored[i + 1..] == restored[i + 1..];
      }
    }
    assert pending + restored[|sections|..] == pending;
    TinyRun(pending, count, filename);
    if pending != [] {
      var merged := Join("\n\n", Map(TextOf, pending));
      var results := BuildParentChildChunks(
        Strip(merged), Style("text", Prefix(filename, pending[0].crumb), count), DEFAULT_LIMITS);
      IsChunkedRun(pending, filename, count);
      groups := groups + results;
    }
  }

  /** A section that is not tiny, behind the tiny ones that wait. */
  method ChunkLarge(pending: seq<Section>, section: Section, filename: string, count: string -> nat)
    returns (results: seq<Group>)
    requires !Tiny(section, count)
    ensures results == ChunkedRun(pending + [section], filename, count)
  {
    hide *;
    LargeRun(pending, section, count);
    var merged := section.text;
    if pending != [] {
      merged := Join("\n\n", Map(TextOf, pending)) + "\n\n" + section.text;
    }
    results := BuildParentChildChunks(
      Strip(merged), Style("text", Prefix(filename, section.crumb), count), DEFAULT_LIMITS);
    IsChunkedRun(pending + [section], filename, count);
  }

  lemma IsRestored(body: string, protected: string, blocks: seq<string>)
    requires protected == Partial(Parse(body), 0, 0) && blocks == Blocks(Parse(body))
    ensures RestoredSections(body) == RestoreSectionTexts(Sections(Lines(protected), 0), blocks)
  {
  }

  lemma IsRestoredSection(s: Section, blocks: seq<string>, r: Section)
    requires r == Section(Restore(s.text, blocks), s.crumb)
    ensures RestoredSection(s, blocks) == r
  {
  }

  lemma IsTiny(s: Section, count: string -> nat)
    ensures Tiny(s, count) <==> count(s.text) < MIN_SECTION_TOKENS
  {
  }

  lemma IsChunkedRun(run: seq<Section>, filename: string, count: string -> nat)
    requires run != []
    ensures ChunkedRun(run, filename, count)
         == Chunked(Strip(RunText(run)), Style("text", Prefix(filename, RunCrumb(run, count)), count), DEFAULT_LIMITS)
  {
    hide Chunked;
  }

  lemma LargeRun(pending: seq<Section>, section: Section, count: string -> nat)
    requires !Tiny(section, count)
    ensures RunCrumb(pending + [section], count) == section.crumb
    ensures RunText(pending + [section])
         == if pending == [] then section.text else Join("\n\n", Map(TextOf, pending)) + "\n\n" + section.text
  {
    hide Tiny;
    assert Map(TextOf, pending + [section]) == Map(TextOf, pending) + [section.text];
    if pending != [] {
      JoinAppend("\n\n", Map(TextOf, pending), [section.text]);
    }
  }

  lemma {:induction false} TinyThen(pending: seq<Section>, rest: seq<Section>, count: string -> nat)
    requires forall p :: 0 <= p < |pending| ==> Tiny(pending[p], count)
    requires rest != [] ==> !Tiny(rest[0], count)
    ensures TinyPrefix(pending + rest, count) == |pending|
  {
    hide Tiny;
    if pending == [] {
      assert pending + rest == rest;
    } else {
      assert (pending + rest)[1..] == pending[1..] + rest;
      TinyThen(pending[1..], rest, count);
    }
  }

  lemma OneMoreRun(pending: seq<Section>, section: Section, rest: seq<Section>, count: string -> nat, filename: string)
    requires forall p :: 0 <= p < |pending| ==> Tiny(pending[p], count)
    requires !Tiny(section, count)
    ensures ChunkedRuns(Runs(pending + ([section] + rest), count), filename, count)
         == ChunkedRun(pending + [section], filename, count) + ChunkedRuns(Runs(rest, count), filename, count)
  {
    hide ChunkedRun, Tiny;
    var all, n := pending + ([section] + rest), |pending|;
    TinyThen(pending, [section] + rest, count);
    assert all[..n + 1] == pending + [section] && all[n + 1..] == rest;
    var runs := Runs(rest, count);
    assert Runs(all, count) == [pending + [section]] + runs;
    assert ([pending + [section]] + runs)[1..] == runs;
  }

  lemma TinyRun(pending: seq<Section>, count: string -> nat, filename: string)
    requires forall p :: 0 <= p < |pending| ==> Tiny(pending[p], count)
    ensures ChunkedRuns(Runs(pending, count), filename, count)
         == if pending == [] then [] else ChunkedRun(pending, filename, count)
    ensures pending != [] ==>
            RunText(pending) == Join("\n\n", Map(TextOf, pending)) && RunCrumb(pending, count) == pending[0].crumb
  {
    hide Tiny, Chunked;
    TinyThen(pending, [], count);
    assert pending + [] == pending;
    if pending != [] {
      assert Runs(pending, count) == [pending];
    }
  }

  // ------------------------------------------------------ nothing is lost

  lemma RestoredTexts(body: string) returns (texts: seq<string>)
    ensures texts != [] && Join("\n", texts) == Partial(Parse(body), 0, 0)
    ensures Map(TextOf, RestoredSections(body)) == RestoreEach(texts, Blocks(Parse(body)))
  {
    hide Join, Partial, Parse, Sections, Lines, Restore;
    var protected := Partial(Parse(body), 0, 0);
    texts := Map(TextOf, Sections(Lines(protected), 0));
    assert texts != [] && Join("\n", texts) == protected by {
      SectionsAreSectioning(protected);
    }
  }

  /** The restored sections join to the body, or hold its visible characters, exactly if no key strays. */
  lemma SectionsRestoredExactly(body: string)
    ensures var text := Join("\n", Map(TextOf, RestoredSections(body)));
            && (text == body <==> NoStray(body))
            && (NonSpace(text) == NonSpace(body) <==> NoStray(body))
  {
    hide *;
    var texts := RestoredTexts(body);
    SectionsExactly(body, texts);
  }

  /** Then each fenced block is whole in exactly one section: no section boundary cuts it. */
  lemma SectionsRoundTrip(body: string) returns (docs: seq<Doc>)
    requires NoStray(body)
    ensures |docs| == |RestoredSections(body)|
    ensures forall i :: 0 <= i < |docs| ==> RestoredSections(body)[i].text == Original(docs[i])
    ensures Map(TextOf, RestoredSections(body)) == Map(Original, docs)
    ensures Join("\n", Map(TextOf, RestoredSections(body))) == body
    ensures Concat(Map(Blocks, docs)) == Blocks(Parse(body))
  {
    hide NoStray, Join, Partial, Parse, Original, RestoredSections, Restore, Blocks;
    var texts := RestoredTexts(body);
    docs := FenceRoundTrip(body, texts);
    assert Map(TextOf, RestoredSections(body)) == Map(Original, docs);
    assert forall i :: 0 <= i < |docs| ==> Map(TextOf, RestoredSections(body))[i] == RestoredSections(body)[i].text;
  }

  lemma {:induction false} RunTextsConserve(runs: seq<seq<Section>>)
    ensures NonSpace(Concat(Map(RunText, runs))) == NonSpace(Concat(Map(TextOf, Concat(runs))))
  {
    hide NonSpace;
    if runs != [] {
      var first, rest := runs[0], runs[1..];
      RunTextsConserve(rest);
      assert Map(RunText, runs) == [RunText(first)] + Map(RunText, rest);
      assert Map(TextOf, Concat(runs)) == Map(TextOf, first) + Map(TextOf, Concat(rest));
      ConcatAppend(Map(TextOf, first), Map(TextOf, Concat(rest)));
      NonSpaceAppend(RunText(first), Concat(Map(RunText, rest)));
      NonSpaceAppend(Concat(Map(TextOf, first)), Concat(Map(TextOf, Concat(rest))));
      TwoBreaks();
      NonSpaceJoin("\n\n", Map(TextOf, first));
    }
  }

  /** The pieces of the children of all runs. */
  function RunPieces(runs: seq<seq<Section>>, count: string -> nat): seq<seq<Piece>> {
    if runs == [] then []
    else ChildPieces(Strip(RunText(runs[0])), count, DEFAULT_LIMITS) + RunPieces(runs[1..], count)
  }

  lemma RunCovers(run: seq<Section>, filename: string, count: string -> nat)
    requires run != []
    ensures var groups := ChunkedRun(run, filename, count);
            && Covers(AllChildren(groups), ChildPieces(Strip(RunText(run)), count, DEFAULT_LIMITS), RunText(run))
            && ParentsHoldChildren(groups)
  {
    hide NonSpace, Children, ChildPieces, Chunked, Added, RepeatsEnd, ParentsHoldChildren, RunText, RunCrumb, Strip;
    var style := Style("text", Prefix(filename, RunCrumb(run, count)), count);
    NonSpaceStrip(RunText(run));
    ChildrenConserve(Strip(RunText(run)), style, DEFAULT_LIMITS);
    GroupsHold(Strip(RunText(run)), style, DEFAULT_LIMITS);
  }

  /**
   * The chunks of a run: the sections' texts joined by blank lines, cut by the budgets of the program,
   * each chunk with the name of the file and the breadcrumb of the last section, or of the first when
   * the last is tiny.
   */
  lemma RunChunks(run: seq<Section>, filename: string, count: string -> nat)
    requires run != []
    ensures
      var crumb := if count(run[|run| - 1].text) < 100 then run[0].crumb else run[|run| - 1].crumb;
      var style := Style("text", "File: " + filename + (if crumb == [] then "" else " | " + Join(" > ", crumb)), count);
      var groups := ChunkedRun(run, filename, count);
      && (forall g :: g in groups ==> IsMade(g.parent, style) && forall c :: c in g.children ==> IsMade(c, style))
      && AllChildren(groups)
           == Children(Strip(Join("\n\n", seq(|run|, i requires 0 <= i < |run| => run[i].text))), style, Limits(1500, 300, 50, 30))
  {
    hide Children, Chunked, Strip, Join, IsMade;
    var style := Style("text", Prefix(filename, RunCrumb(run, count)), count);
    assert Map(TextOf, run) == seq(|run|, i requires 0 <= i < |run| => run[i].text);
    GroupsHold(Strip(RunText(run)), style, DEFAULT_LIMITS);
    ChunksAreMade(Strip(RunText(run)), style, DEFAULT_LIMITS);
  }

  lemma NoRunCovers()
    ensures Covers([], [], "") && AllChildren([]) == [] && ParentsHoldChildren([])
  {
    NothingAdded();
  }

  /** The children of all runs hold the texts of the runs. */
  lemma {:induction false} RunsCover(runs: seq<seq<Section>>, filename: string, count: string -> nat)
    requires forall r :: 0 <= r < |runs| ==> runs[r] != []
    ensures var groups := ChunkedRuns(runs, filename, count);
            && Covers(AllChildren(groups), RunPieces(runs, count), Concat(Map(RunText, runs)))
            && ParentsHoldChildren(groups)
  {
    hide Covers, ChildPieces, ChunkedRun, RunText, AllChildren, ParentsHoldChildren;
    NoRunCovers();
    if runs == [] {
      assert Map(RunText, runs) == [];
    } else {
      var first, rest := ChunkedRun(runs[0], filename, count), ChunkedRuns(runs[1..], filename, count);
      RunCovers(runs[0], filename, count);
      RunsCover(runs[1..], filename, count);
      assert Map(RunText, runs) == [RunText(runs[0])] + Map(RunText, runs[1..]);
      GroupsAppend(first, rest);
      CoversAppend(
        AllChildren(first), ChildPieces(Strip(RunText(runs[0])), count, DEFAULT_LIMITS), RunText(runs[0]),
        AllChildren(rest), RunPieces(runs[1..], count), Concat(Map(RunText, runs[1..])));
    }
  }

  lemma GroupsAppend(a: seq<Group>, b: seq<Group>)
    ensures AllChildren(a + b) == AllChildren(a) + AllChildren(b)
    ensures ParentsHoldChildren(a) && ParentsHoldChildren(b) ==> ParentsHoldChildren(a + b)
  {
    assert Map(ChildrenOf, a + b) == Map(ChildrenOf, a) + Map(ChildrenOf, b);
    ConcatAppend(Map(ChildrenOf, a), Map(ChildrenOf, b));
  }

  lemma CoversSame(children: seq<Chunk>, pieces: seq<seq<Piece>>, s: string, t: string)
    requires Covers(children, pieces, s)
    ensures Covers(children, pieces, t) <==> NonSpace(s) == NonSpace(t)
  {
    hide Added, Held, RepeatsEnd;
  }

  /**
   * From the markdown body to what the chunker returns: the children of all groups hold the pieces of
   * their windows, whose new parts are the non-space characters of the restored sections, in order
   * and once; and these are the non-space characters of the body exactly if no key strays. Each
   * parent holds the text of its children.
   */
  lemma MarkdownConserves(body: string, filename: string, count: string -> nat)
    ensures var runs := Runs(RestoredSections(body), count);
            var children := AllChildren(ChunkedRuns(runs, filename, count));
            && Covers(children, RunPieces(runs, count), Join("\n", Map(TextOf, RestoredSections(body))))
            && (Covers(children, RunPieces(runs, count), body) <==> NoStray(body))
            && ParentsHoldChildren(ChunkedRuns(runs, filename, count))
  {
    hide *;
    var sections := RestoredSections(body);
    var runs, text := Runs(sections, count), Join("\n", Map(TextOf, sections));
    var children := AllChildren(ChunkedRuns(runs, filename, count));
    SectionsRestoredExactly(body);
    RunsPartition(sections, count);
    NoRunEmpty(sections, count);
    RunsCover(runs, filename, count);
    RunTextsConserve(runs);
    TwoBreaks();
    NonSpaceJoin("\n", Map(TextOf, sections));
    CoversSame(children, RunPieces(runs, count), Concat(Map(RunText, runs)), text);
    CoversSame(children, RunPieces(runs, count), text, body);
  }

  lemma NoRunEmpty(sections: seq<Section>, count: string -> nat)
    ensures forall r :: 0 <= r < |Runs(sections, count)| ==> Runs(sections, count)[r] != []
  {
    RunsAreRuns(sections, count);
  }
}
