/** services/rag/chunk.py: sections under their headings, then windows over each section. */
module Chunking {
  import opened Aggregates
  import opened Texts

  // ----- windows -----

  function Slice(text: string, from: nat, to: nat): string
    requires from <= to
  {
    var end := if to <= |text| then to else |text|;
    if from <= end then text[from..end] else ""
  }

  /** The windows from `start` on. */
  function WindowsFrom(text: string, maxChars: nat, step: nat, start: nat): seq<string>
    requires step > 0
    decreases |text| - start
  {
    if start >= |text| then []
    else [Slice(text, start, start + maxChars)] + WindowsFrom(text, maxChars, step, start + step)
  }

  function Windows(text: string, maxChars: nat, overlap: int): seq<string>
    requires |text| <= maxChars || overlap < maxChars
  {
    if |text| <= maxChars then [text] else WindowsFrom(text, maxChars, maxChars - overlap, 0)
  }

  /** Ends exactly because the overlap is less than the window. */
  method Window(text: string, maxChars: nat, overlap: int) returns (windows: seq<string>)
    requires |text| <= maxChars || overlap < maxChars
    ensures windows == Windows(text, maxChars, overlap)
  {
    if |text| <= maxChars {
      return [text];
    }
    windows := [];
    var start: nat := 0;
    var step := maxChars - overlap;
    while start < |text|
      invariant windows + WindowsFrom(text, maxChars, step, start) == WindowsFrom(text, maxChars, step, 0)
      decreases |text| - start
    {
      windows := windows + [Slice(text, start, start + maxChars)];
      start := start + step;
    }
  }

  /** What is left of a window when its overlap with the one before is dropped. */
  function Dropped(window: string, overlap: nat): string { if |window| <= overlap then "" else window[overlap..] }

  /** The first window, then the rest of each later one. */
  function Restored(windows: seq<string>, overlap: nat): string {
    if windows == [] then "" else windows[0] + Rest(windows[1..], overlap)
  }

  function Rest(windows: seq<string>, overlap: nat): string {
    if windows == [] then "" else Dropped(windows[0], overlap) + Rest(windows[1..], overlap)
  }

  lemma {:induction false} RestContinues(text: string, maxChars: nat, overlap: nat, start: nat)
    requires overlap < maxChars
    ensures Rest(WindowsFrom(text, maxChars, maxChars - overlap, start), overlap) 
         == if start + overlap <= |text| then text[start + overlap..] else ""
    decreases |text| - start
  {
    hide Rest, Dropped, Slice;
    var step := maxChars - overlap;
    if start >= |text| {
      NothingRests(overlap);
    } else {
      RestContinues(text, maxChars, overlap, start + step);
      var window := Slice(text, start, start + maxChars);
      var rest := WindowsFrom(text, maxChars, step, start + step);
      assert WindowsFrom(text, maxChars, step, start) == [window] + rest;
      RestOfMore(window, rest, overlap);
      DroppedWindow(text, maxChars, overlap, start);
    }
  }

  lemma RestOfMore(window: string, rest: seq<string>, overlap: nat)
    ensures Rest([window] + rest, overlap) == Dropped(window, overlap) + Rest(rest, overlap)
  {
    assert ([window] + rest)[1..] == rest;
  }

  /** A window without its overlap goes as far as the overlap of the next begins. */
  lemma DroppedWindow(text: string, maxChars: nat, overlap: nat, start: nat)
    requires overlap < maxChars && start < |text|
    ensures var dropped := Dropped(Slice(text, start, start + maxChars), overlap);
            if start + maxChars <= |text| then dropped == text[start + overlap..start + maxChars]
            else dropped == if start + overlap <= |text| then text[start + overlap..] else ""
  {
  }

  lemma {:induction false} WindowsFit(text: string, maxChars: nat, step: nat, start: nat)
    requires step > 0
    ensures forall i :: 0 <= i < |WindowsFrom(text, maxChars, step, start)| ==>
            |WindowsFrom(text, maxChars, step, start)[i]| <= maxChars
    decreases |text| - start
  {
    if start < |text| {
      WindowsFit(text, maxChars, step, start + step);
    }
  }

  /** No window is too long, and the windows together lose nothing: drop the overlap from each but
      the first, and what is left is the text. */
  lemma WindowsRestoreTheText(text: string, maxChars: nat, overlap: nat)
    requires overlap < maxChars
    ensures var windows := Windows(text, maxChars, overlap);
            && windows != []
            && (forall i :: 0 <= i < |windows| ==> |windows[i]| <= maxChars)
            && Restored(windows, overlap) == text
  {
    hide Rest, Slice, WindowsFrom;
    if |text| <= maxChars {
      assert [text][1..] == [];
      NothingRests(overlap);
      assert text + "" == text;
    } else {
      var step := maxChars - overlap;
      WindowsFit(text, maxChars, step, 0);
      RestContinues(text, maxChars, overlap, step);
      FirstWindow(text, maxChars, step);
      assert text == text[..maxChars] + text[maxChars..];
    }
  }

  lemma NothingRests(overlap: nat)
    ensures Rest([], overlap) == ""
  {
  }

  lemma FirstWindow(text: string, maxChars: nat, step: nat)
    requires 0 < step && maxChars < |text|
    ensures var windows := WindowsFrom(text, maxChars, step, 0);
            windows != [] && windows[0] == text[..maxChars] && windows[1..] == WindowsFrom(text, maxChars, step, step)
  {
  }

  // ----- headings -----

  /** A line as the heading pattern sees it: levels are 1 to 4. */
  datatype Line = Heading(level: nat, title: string) | Body(text: string)

  datatype Section = Section(path: string, text: string)

  const INTRO := "(intro)"

  function Path(stack: seq<string>): string {
    var path := Join(" > ", stack);
    if path == "" then INTRO else path
  }

  predicate WellFormed(lines: seq<Line>) {
    forall i :: 0 <= i < |lines| && lines[i].Heading? ==> 1 <= lines[i].level <= 4
  }

  function Pushed(stack: seq<string>, level: nat, title: string): seq<string>
    requires level >= 1
  {
    (if |stack| < level then stack else stack[..level - 1]) + [title]
  }

  /** The heading stack after `lines`. */
  function Stack(lines: seq<Line>): seq<string>
    requires WellFormed(lines)
  {
    if lines == [] then []
    else
      var before := Stack(lines[..|lines| - 1]);
      match lines[|lines| - 1]
      case Body(_) => before
      case Heading(level, title) => Pushed(before, level, title)
  }

  /** The body lines since the last heading. */
  function Pending(lines: seq<Line>): seq<string> {
    if lines == [] then []
    else
      match lines[|lines| - 1]
      case Heading(_, _) => []
      case Body(text) => Pending(lines[..|lines| - 1]) + [text]
  }

  function Flushed(sections: seq<Section>, stack: seq<string>, pending: seq<string>): seq<Section> {
    var body := Strip(Join("\n", pending));
    if body == "" then sections else sections + [Section(Path(stack), body)]
  }

  /** The sections closed by the headings of `lines`. */
  function Closed(lines: seq<Line>): seq<Section>
    requires WellFormed(lines)
  {
    if lines == [] then []
    else
      var before := lines[..|lines| - 1];
      if lines[|lines| - 1].Body? then Closed(before) else Flushed(Closed(before), Stack(before), Pending(before))
  }

  function Sections(lines: seq<Line>): seq<Section>
    requires WellFormed(lines)
  {
    Flushed(Closed(lines), Stack(lines), Pending(lines))
  }

  /** The lists that the loop over the lines updates, and the `flush` that closes over them. */
  class Splitter {
    var stack: seq<string>
    var sections: seq<Section>
    var pending: seq<string>

    constructor ()
      ensures stack == [] && sections == [] && pending == []
    {
      stack, sections, pending := [], [], [];
    }

    method Flush()
      modifies this
      ensures sections == Flushed(old(sections), stack, old(pending))
      ensures stack == old(stack) && pending == []
    {
      var body := Strip(Join("\n", pending));
      if body != "" {
        sections := sections + [Section(Path(stack), body)];
      }
      pending := [];
    }
  }

  method SplitMarkdownSections(lines: seq<Line>) returns (sections: seq<Section>)
    requires WellFormed(lines)
    ensures sections == Sections(lines)
  {
    var s := new Splitter();
    for i := 0 to |lines|
      invariant s.stack == Stack(lines[..i]) && s.pending == Pending(lines[..i]) && s.sections == Closed(lines[..i])
    {
      assert lines[..i + 1][..i] == lines[..i];
      match lines[i]
      case Body(text) => s.pending := s.pending + [text];
      case Heading(level, title) =>
        s.Flush();
        if |s.stack| >= level {
          s.stack := s.stack[..level - 1];
        }
        s.stack := s.stack + [title];
    }
    assert lines[..|lines|] == lines;
    s.Flush();
    sections := s.sections;
  }

  // ----- breadcrumbs -----

  datatype Open = Open(level: nat, title: string)

  /** The headings that enclose whatever follows `lines`, outermost first, by the usual meaning: a
      heading ends every heading of its own level or deeper. */
  function Chain(lines: seq<Line>): seq<Open> {
    if lines == [] then []
    else
      var before := Chain(lines[..|lines| - 1]);
      match lines[|lines| - 1]
      case Body(_) => before
      case Heading(level, title) => Kept(Shallower(level), before) + [Open(level, title)]
  }

  function Shallower(level: nat): Open -> bool { (o: Open) => o.level < level }

  function TitleOf(): Open -> string { (o: Open) => o.title }

  function Titles(chain: seq<Open>): seq<string> { Mapped(TitleOf(), chain) }

  ghost predicate Deepening(chain: seq<Open>) {
    && (forall i :: 0 <= i < |chain| ==> chain[i].level >= 1)
    && forall i, j :: 0 <= i < j < |chain| ==> chain[i].level < chain[j].level
  }

  /** How many of the open headings are shallower than `level`. */
  function Depth(chain: seq<Open>, level: nat): nat { |Kept(Shallower(level), chain)| }

  lemma LastIsDeepest(chain: seq<Open>)
    requires Deepening(chain) && chain != []
    ensures var n := |chain| - 1;
            Deepening(chain[..n]) && forall i :: 0 <= i < n ==>
              chain[..n][i] == chain[i] && chain[i].level < chain[n].level
  {
  }

  lemma {:induction false} KeptIsPrefix(chain: seq<Open>, level: nat)
    requires Deepening(chain)
    ensures var d := Depth(chain, level);
            && d <= |chain| && Kept(Shallower(level), chain) == chain[..d]
            && (forall i :: 0 <= i < d ==> chain[i].level < level)
            && (forall i :: d <= i < |chain| ==> chain[i].level >= level)
  {
    if chain != [] {
      hide Kept, Deepening;
      var n := |chain| - 1;
      LastIsDeepest(chain);
      KeptIsPrefix(chain[..n], level);
      KeptLast(Shallower(level), chain);
      var d := Depth(chain[..n], level);
      var next := if d < n then chain[..n][d] else chain[n];
      assert d < n ==> level <= next.level < chain[n].level;
    }
  }

  lemma {:induction false} ChainDeepens(lines: seq<Line>)
    requires WellFormed(lines)
    ensures Deepening(Chain(lines))
  {
    if lines != [] {
      var n := |lines| - 1;
      ChainDeepens(lines[..n]);
      if lines[n].Heading? {
        KeptIsPrefix(Chain(lines[..n]), lines[n].level);
      }
    }
  }

  lemma {:induction false} LevelsLeaveRoom(chain: seq<Open>, i: nat)
    requires Deepening(chain) && i < |chain|
    ensures chain[i].level >= i + 1
  {
    if i > 0 {
      LevelsLeaveRoom(chain, i - 1);
    }
  }

  /** A heading fits what is open: it is deeper than all of it, or all shallower levels are open. */
  predicate Fits(chain: seq<Open>, level: nat) {
    Depth(chain, level) == |chain| || Depth(chain, level) == level - 1
  }

  ghost predicate EveryHeadingFits(lines: seq<Line>) {
    forall i :: 0 <= i < |lines| && lines[i].Heading? ==> Fits(Chain(lines[..i]), lines[i].level)
  }

  lemma DepthLeavesRoom(chain: seq<Open>, level: nat)
    requires Deepening(chain) && level >= 1
    ensures var d := Depth(chain, level); d <= level - 1 && d <= |chain| && Kept(Shallower(level), chain) == chain[..d]
  {
    KeptIsPrefix(chain, level);
    var d := Depth(chain, level);
    if d > 0 {
      LevelsLeaveRoom(chain, d - 1);
    }
  }

  lemma PushIsChainIff(chain: seq<Open>, level: nat, title: string)
    requires Deepening(chain) && level >= 1
    ensures Pushed(Titles(chain), level, title) == Titles(Kept(Shallower(level), chain) + [Open(level, title)])
            <==> Fits(chain, level)
  {
    hide Kept, Shallower, Mapped;
    DepthLeavesRoom(chain, level);
    var kept := Kept(Shallower(level), chain);
    var cut := if |chain| < level then chain else chain[..level - 1];
    assert Titles(cut) == if |chain| < level then Titles(chain) else Titles(chain)[..level - 1];
    assert Pushed(Titles(chain), level, title) == Titles(cut) + [title];
    MappedConcat(TitleOf(), kept, [Open(level, title)]);
    assert Titles(kept + [Open(level, title)]) == Titles(kept) + [title];
    if |cut| == |kept| {
      assert cut == kept;
    } else {
      assert |Titles(cut) + [title]| != |Titles(kept) + [title]|;
    }
  }

  /** The stack is the chain of enclosing headings, at every point of the document, exactly when
      every heading fits what is open where it stands. */
  lemma {:induction false} BreadcrumbsAreChainsIff(lines: seq<Line>)
    requires WellFormed(lines)
    ensures (forall n :: 0 <= n <= |lines| ==> Stack(lines[..n]) == Titles(Chain(lines[..n])))
            <==> EveryHeadingFits(lines)
  {
    if lines == [] {
      assert lines[..0] == [];
    } else {
      var m := |lines| - 1;
      var before := lines[..m];
      BreadcrumbsAreChainsIff(before);
      assert forall n :: 0 <= n <= m ==> before[..n] == lines[..n];
      assert lines[..m + 1] == lines;
      ChainDeepens(before);
      FitsExtends(lines);
      if lines[m].Heading? {
        PushIsChainIff(Chain(before), lines[m].level, lines[m].title);
      }
    }
  }

  lemma FitsExtends(lines: seq<Line>)
    requires lines != []
    ensures var m := |lines| - 1;
            EveryHeadingFits(lines) <==>
              EveryHeadingFits(lines[..m]) && (lines[m].Heading? ==> Fits(Chain(lines[..m]), lines[m].level))
  {
    var m := |lines| - 1;
    assert forall i :: 0 <= i < m ==> lines[..m][..i] == lines[..i];
    assert forall i :: 0 <= i < m ==> lines[..m][i] == lines[i];
  }

  /** The level of the last heading; 0 before the first. */
  function CurrentLevel(lines: seq<Line>): nat {
    if lines == [] then 0
    else if lines[|lines| - 1].Heading? then lines[|lines| - 1].level
    else CurrentLevel(lines[..|lines| - 1])
  }

  /** A heading is never more than one level deeper than the heading before it. */
  ghost predicate NeverSkips(lines: seq<Line>) {
    forall i :: 0 <= i < |lines| && lines[i].Heading? ==> lines[i].level <= CurrentLevel(lines[..i]) + 1
  }

  /** The open headings are exactly one of each level down to the current one. */
  ghost predicate Contiguous(chain: seq<Open>, level: nat) {
    |chain| == level && forall i :: 0 <= i < |chain| ==> chain[i].level == i + 1
  }

  lemma NextLevelFits(chain: seq<Open>, current: nat, level: nat)
    requires Deepening(chain) && Contiguous(chain, current) && 1 <= level <= current + 1
    ensures Fits(chain, level) && Depth(chain, level) == level - 1
    ensures forall title :: Contiguous(Kept(Shallower(level), chain) + [Open(level, title)], level)
  {
    KeptIsPrefix(chain, level);
    var d := Depth(chain, level);
    if d < |chain| {
      assert chain[d].level == d + 1;
    }
    if d > 0 {
      assert chain[d - 1].level == d;
    }
  }

  lemma {:induction false} NeverSkippingFits(lines: seq<Line>)
    requires WellFormed(lines) && NeverSkips(lines)
    ensures EveryHeadingFits(lines) && Contiguous(Chain(lines), CurrentLevel(lines))
  {
    if lines != [] {
      var m := |lines| - 1;
      var before := lines[..m];
      assert forall i :: 0 <= i < m ==> before[i] == lines[i] && before[..i] == lines[..i];
      NeverSkippingFits(before);
      FitsExtends(lines);
      if lines[m].Heading? {
        ChainDeepens(before);
        assert lines[m].level <= CurrentLevel(before) + 1;
        NextLevelFits(Chain(before), CurrentLevel(before), lines[m].level);
      }
    }
  }

  /** If headings never skip a level, every breadcrumb is the chain of enclosing headings. */
  lemma BreadcrumbsOfOrderlyHeadings(lines: seq<Line>, n: nat)
    requires WellFormed(lines) && NeverSkips(lines) && n <= |lines|
    ensures Stack(lines[..n]) == Titles(Chain(lines[..n]))
  {
    NeverSkippingFits(lines);
    BreadcrumbsAreChainsIff(lines);
  }

  /** If one does, a breadcrumb can name a heading that has ended: after `#` and `###`, a second
      `###` is shown under the first. */
  lemma SkippedLevelMisleads(a: string, b: string, c: string)
    ensures var lines := [Heading(1, a), Heading(3, b), Heading(3, c)];
            Stack(lines) == [a, b, c] && Titles(Chain(lines)) == [a, c]
  {
    var lines := [Heading(1, a), Heading(3, b), Heading(3, c)];
    assert lines[..2] == [Heading(1, a), Heading(3, b)] && lines[..2][..1] == [Heading(1, a)] && lines[..1][..0] == [];
    assert [Heading(1, a)][..0] == [];
    assert Stack(lines[..2]) == [a, b];
    assert Chain([Heading(1, a)]) == [Open(1, a)];
    KeptTwo(Open(1, a), Open(3, b));
    assert Chain(lines[..2]) == [Open(1, a), Open(3, b)];
  }

  lemma KeptTwo(x: Open, y: Open)
    requires x.level == 1 && y.level == 3
    ensures Kept(Shallower(3), [x]) == [x] && Kept(Shallower(3), [x, y]) == [x]
  {
    KeptOne(Shallower(3), x);
    KeptLast(Shallower(3), [x, y]);
    assert [x, y][..1] == [x];
  }

  // ----- chunks -----

  /** Hashes are taken to be free of collisions, so an id is what it is a hash of. */
  type DocId = string

  datatype ChunkId = ChunkId(doc: DocId, index: nat)

  datatype Chunk = Chunk(id: ChunkId, project: string, section: string, index: nat, text: string)

  function DocIdFor(project: string, version: string, sourcePath: string): DocId {
    project + ":" + version + ":" + sourcePath
  }

  function ChunksOfTexts(doc: DocId, project: string, section: string, texts: seq<string>, from: nat): seq<Chunk> {
    seq(|texts|, i requires 0 <= i < |texts| => Chunk(ChunkId(doc, from + i), project, section, from + i, texts[i]))
  }

  /** Every section can be cut into windows: it fits one, or the windows advance. */
  predicate AllCut(sections: seq<Section>, maxChars: nat, overlap: int) {
    overlap < maxChars || forall i :: 0 <= i < |sections| ==> |sections[i].text| <= maxChars
  }

  /** The chunks of `sections`, numbered from 0 throughout. */
  function ChunksOf(doc: DocId, project: string, sections: seq<Section>, maxChars: nat, overlap: int): seq<Chunk>
    requires AllCut(sections, maxChars, overlap)
  {
    if sections == [] then []
    else
      var before := ChunksOf(doc, project, sections[..|sections| - 1], maxChars, overlap);
      var last := sections[|sections| - 1];
      before + ChunksOfTexts(doc, project, last.path, Windows(last.text, maxChars, overlap), |before|)
  }

  lemma OneMoreChunk(doc: DocId, project: string, section: string, windows: seq<string>, j: nat, from: nat)
    requires j < |windows|
    ensures ChunksOfTexts(doc, project, section, windows[..j + 1], from)
         == ChunksOfTexts(doc, project, section, windows[..j], from)
          + [Chunk(ChunkId(doc, from + j), project, section, from + j, windows[j])]
  {
  }

  method ChunksFromSections(doc: DocId, project: string, sections: seq<Section>, maxChars: nat, overlap: int)
      returns (chunks: seq<Chunk>)
    requires AllCut(sections, maxChars, overlap)
    ensures chunks == ChunksOf(doc, project, sections, maxChars, overlap)
  {
    hide ChunksOf, ChunksOfTexts, Windows;
    chunks := [];
    var index := 0;
    NoSections(doc, project, maxChars, overlap);
    assert sections[..0] == [];
    for i := 0 to |sections|
      invariant chunks == ChunksOf(doc, project, sections[..i], maxChars, overlap) && index == |chunks|
    {
      OneMoreSection(doc, project, sections, i, maxChars, overlap);
      var windows := Window(sections[i].text, maxChars, overlap);
      ghost var before := chunks;
      NoChunks(doc, project, sections[i].path, |before|);
      assert windows[..0] == [];
      for j := 0 to |windows|
        invariant chunks == before + ChunksOfTexts(doc, project, sections[i].path, windows[..j], |before|)
        invariant index == |chunks| == |before| + j
      {
        OneMoreChunk(doc, project, sections[i].path, windows, j, |before|);
        chunks := chunks + [Chunk(ChunkId(doc, index), project, sections[i].path, index, windows[j])];
        index := index + 1;
      }
      assert windows[..|windows|] == windows;
    }
    assert sections[..|sections|] == sections;
  }

  lemma OneMoreSection(doc: DocId, project: string, sections: seq<Section>, i: nat, maxChars: nat, overlap: int)
    requires i < |sections| && AllCut(sections, maxChars, overlap)
    ensures var before := ChunksOf(doc, project, sections[..i], maxChars, overlap);
            ChunksOf(doc, project, sections[..i + 1], maxChars, overlap)
            == before + ChunksOfTexts(doc, project, sections[i].path, Windows(sections[i].text, maxChars, overlap),
              |before|)
  {
    hide ChunksOfTexts, Windows;
    assert sections[..i + 1][..i] == sections[..i];
  }

  lemma NoSections(doc: DocId, project: string, maxChars: nat, overlap: int)
    ensures ChunksOf(doc, project, [], maxChars, overlap) == []
  {
  }

  lemma NoChunks(doc: DocId, project: string, section: string, from: nat)
    ensures ChunksOfTexts(doc, project, section, [], from) == []
  {
  }

  /** Chunks are numbered 0 to n-1, in order, and their ids say so. */
  ghost predicate Numbered(doc: DocId, chunks: seq<Chunk>) {
    forall i :: 0 <= i < |chunks| ==> chunks[i].index == i && chunks[i].id == ChunkId(doc, i)
  }

  lemma {:induction false} ChunksAreNumbered(doc: DocId, project: string, sections: seq<Section>, maxChars: nat,
      overlap: int)
    requires AllCut(sections, maxChars, overlap)
    ensures Numbered(doc, ChunksOf(doc, project, sections, maxChars, overlap))
  {
    if sections != [] {
      ChunksAreNumbered(doc, project, sections[..|sections| - 1], maxChars, overlap);
    }
  }

  /** Two sources whose project and version hold no colon have the same document id only if they are
      the same source. */
  lemma DocIdsAreFaithful(p: string, v: string, s: string, p': string, v': string, s': string)
    requires ':' !in p && ':' !in v && ':' !in p' && ':' !in v'
    requires DocIdFor(p, v, s) == DocIdFor(p', v', s')
    ensures p == p' && v == v' && s == s'
  {
    var rest, rest' := v + ":" + s, v' + ":" + s';
    assert DocIdFor(p, v, s) == p + (":" + rest) && DocIdFor(p', v', s') == p' + (":" + rest');
    FirstColon(p, ":" + rest, p', ":" + rest');
    assert (":" + rest)[1..] == rest && (":" + rest')[1..] == rest';
    assert rest == v + (":" + s) && rest' == v' + (":" + s');
    FirstColon(v, ":" + s, v', ":" + s');
    assert (":" + s)[1..] == s && (":" + s')[1..] == s';
  }

  lemma FirstColon(a: string, x: string, b: string, y: string)
    requires ':' !in a && ':' !in b && x != "" && x[0] == ':' && y != "" && y[0] == ':'
    requires a + x == b + y
    ensures a == b && x == y
  {
    assert (a + x)[|a|] == ':' && (b + y)[|b|] == ':';
    assert |a| == |b|;
    assert (a + x)[..|a|] == a && (b + y)[..|b|] == b;
    assert (a + x)[|a|..] == x && (b + y)[|b|..] == y;
  }

  /** Otherwise two different sources can share one id. */
  lemma ColonsCanCollide(p: string, v: string, s: string, q: string)
    ensures DocIdFor(p + ":" + q, v, s) == DocIdFor(p, q, v + ":" + s)
  {
    assert p + ":" + q + ":" + v + ":" + s == p + ":" + q + ":" + (v + ":" + s);
  }

  /** Another source has the same document key. */
  ghost predicate SharesKey(p: string, v: string, s: string) {
    exists p', v', s' :: (p', v', s') != (p, v, s) && DocIdFor(p', v', s') == DocIdFor(p, v, s)
  }

  /** A source shares its document key, so that the two can overwrite each other, exactly if there is
      a colon in its project, its version or its path. */
  lemma DocKeyIsSharedIff(p: string, v: string, s: string)
    ensures SharesKey(p, v, s) <==> ':' in p || ':' in v || ':' in s
  {
    if ':' in p {
      var a, b := Cut(p);
      ColonsCanCollide(a, v, s, b);
    } else if ':' in v {
      var a, b := Cut(v);
      assert DocIdFor(p, a, b + ":" + s) == DocIdFor(p, v, s);
    } else if ':' in s {
      var a, b := Cut(s);
      assert p + ":" + v + ":" + (a + ":" + b) == (p + ":" + v) + ":" + a + ":" + b;
      assert DocIdFor(p + ":" + v, a, b) == DocIdFor(p, v, s);
      assert p + ":" + v != p;
    } else {
      forall p', v', s' | DocIdFor(p', v', s') == DocIdFor(p, v, s)
        ensures (p', v', s') == (p, v, s)
      {
        TwoColonsPlaceTheParts(p, v, s, p', v', s');
      }
    }
  }

  lemma Cut(text: string) returns (a: string, b: string)
    requires ':' in text
    ensures text == a + ":" + b && a != text
  {
    var i :| 0 <= i < |text| && text[i] == ':';
    a, b := text[..i], text[i + 1..];
  }

  /** Without other colons the two separators are where they are in any reading of the key. */
  lemma TwoColonsPlaceTheParts(p: string, v: string, s: string, p': string, v': string, s': string)
    requires ':' !in p && ':' !in v && ':' !in s && DocIdFor(p', v', s') == DocIdFor(p, v, s)
    ensures (p', v', s') == (p, v, s)
  {
    var first, second := |p|, |p| + 1 + |v|;
    var key := DocIdFor(p, v, s);
    assert forall i :: 0 <= i < |key| && key[i] == ':' ==> i == first || i == second;
    assert key[|p'|] == ':' && key[|p'| + 1 + |v'|] == ':';
    assert |p'| == first && |v'| == |v|;
    assert key[..first] == p && key[..first] == p';
    assert key[first + 1..second] == v && key[first + 1..second] == v';
    assert key[second + 1..] == s && key[second + 1..] == s';
  }
}
