/** eval/judge.py: finding the balanced `{...}` spans of a judge's reply.

    The scanning loop as a machine over a prefix of the text, with a depth and the start of the
    outermost open brace; what its spans are is then said without it, by the depth of a slice: an
    object is balanced, and stays at positive depth until its last character. */
module BraceScan {
  import opened Wrappers

  type Span = (nat, nat)

  /** The variables of the scan. `start` is where the last outermost brace opened. */
  datatype Scanner = Scanner(depth: nat, start: Option<nat>, spans: seq<Span>)

  function Next(s: Scanner, i: nat, c: char): Scanner {
    if c == '{' then s.(start := if s.depth == 0 then Some(i) else s.start, depth := s.depth + 1)
    else if c == '}' && s.depth > 0 then
      Scanner(s.depth - 1, s.start,
        if s.depth == 1 && s.start.Some? then s.spans + [(s.start.value, i + 1)] else s.spans)
    else s
  }

  function Scan(text: string): Scanner {
    if text == "" then Scanner(0, None, []) else Next(Scan(text[..|text| - 1]), |text| - 1, text[|text| - 1])
  }

  function Part(text: string, span: Span): string {
    if span.0 <= span.1 <= |text| then text[span.0..span.1] else ""
  }

  function Parts(text: string, spans: seq<Span>): (parts: seq<string>)
    ensures |parts| == |spans|
  {
    seq(|spans|, i requires 0 <= i < |spans| => Part(text, spans[i]))
  }

  function BalancedObjects(text: string): seq<string> { Parts(text, Scan(text).spans) }

  method FindBalancedObjects(text: string) returns (out: seq<string>)
    ensures out == BalancedObjects(text)
  {
    var depth: nat, start: Option<nat>, i: nat := 0, None, 0;
    ghost var spans: seq<Span> := [];
    out := [];
    while i < |text|
      invariant i <= |text|
      invariant Scan(text[..i]) == Scanner(depth, start, spans)
      invariant out == Parts(text, spans)
      invariant start.Some? ==> start.value < i
    {
      assert text[..i + 1][..i] == text[..i];
      if text[i] == '{' {
        if depth == 0 {
          start := Some(i);
        }
        depth := depth + 1;
      } else if text[i] == '}' && depth != 0 {
        depth := depth - 1;
        if depth == 0 && start.Some? {
          out := out + [text[start.value..i + 1]];
          spans := spans + [(start.value, i + 1)];
        }
      }
      i := i + 1;
    }
    assert text[..|text|] == text;
  }

  // ----- what a balanced braced is -----

  /** Opening braces less closing braces. */
  function Net(s: string): int {
    if s == "" then 0
    else Net(s[..|s| - 1]) + if s[|s| - 1] == '{' then 1 else if s[|s| - 1] == '}' then -1 else 0
  }

  /** Balanced, and at positive depth everywhere inside. */
  ghost predicate IsObject(s: string) {
    |s| >= 2 && Net(s) == 0 && forall i :: 0 < i < |s| ==> Net(s[..i]) > 0
  }

  /** The depth of the scan at position `i`: a closing brace with nothing open counts for nothing. */
  function DepthAt(text: string, i: nat): nat
    requires i <= |text|
  {
    Scan(text[..i]).depth
  }

  /** An object that nothing open encloses. */
  ghost predicate TopLevel(text: string, span: Span) {
    span.0 < span.1 <= |text| && DepthAt(text, span.0) == 0 && IsObject(text[span.0..span.1])
  }

  lemma ScanLast(text: string, c: char)
    ensures Scan(text + [c]) == Next(Scan(text), |text|, c)
  {
    assert (text + [c])[..|text|] == text;
  }

  lemma NetLast(s: string, c: char)
    ensures Net(s + [c]) == Net(s) + if c == '{' then 1 else if c == '}' then -1 else 0
  {
    assert (s + [c])[..|s|] == s;
  }

  // ----- round trip -----

  predicate BraceFree(gap: string) { '{' !in gap && '}' !in gap }

  lemma {:induction false} GapIsSkipped(before: string, gap: string)
    requires BraceFree(gap)
    ensures Scan(before + gap) == Scan(before)
  {
    if gap == "" {
      assert before + gap == before;
    } else {
      var n := |gap| - 1;
      GapIsSkipped(before, gap[..n]);
      assert before + gap == before + gap[..n] + [gap[n]];
      ScanLast(before + gap[..n], gap[n]);
    }
  }

  /** Inside an object the scan counts it, and finds nothing yet. */
  lemma {:induction false} InsideObject(before: string, braced: string, i: nat)
    requires Scan(before).depth == 0 && IsObject(braced) && 0 < i < |braced|
    ensures Scan(before + braced[..i]) == Scanner(Net(braced[..i]), Some(|before|), Scan(before).spans)
  {
    hide Scan, Net, IsObject;
    var last := braced[i - 1];
    assert braced[..i] == braced[..i - 1] + [last];
    assert before + braced[..i] == before + braced[..i - 1] + [last];
    ScanLast(before + braced[..i - 1], last);
    NetLast(braced[..i - 1], last);
    PositiveInside(braced, i);
    if i == 1 {
      assert braced[..0] == "" && before + braced[..0] == before;
      NetOfNothing();
    } else {
      InsideObject(before, braced, i - 1);
      PositiveInside(braced, i - 1);
    }
  }

  lemma PositiveInside(braced: string, i: nat)
    requires IsObject(braced) && 0 < i < |braced|
    ensures Net(braced[..i]) > 0
  {
  }

  lemma NetOfNothing()
    ensures Net("") == 0
  {
  }

  lemma LastOfObject(braced: string)
    requires IsObject(braced)
    ensures var n := |braced| - 1;
            n > 0 && braced[n] == '}' && Net(braced[..n]) == 1 && braced == braced[..n] + [braced[n]]
  {
    var n := |braced| - 1;
    assert braced == braced[..n] + [braced[n]];
    NetLast(braced[..n], braced[n]);
  }

  lemma ObjectIsFound(before: string, braced: string)
    requires Scan(before).depth == 0 && IsObject(braced)
    ensures Scan(before + braced) == Scanner(0, Some(|before|), Scan(before).spans + [(|before|, |before| + |braced|)])
  {
    hide Scan, Net, IsObject;
    var n := |braced| - 1;
    LastOfObject(braced);
    InsideObject(before, braced, n);
    assert before + braced == before + braced[..n] + [braced[n]];
    ScanLast(before + braced[..n], braced[n]);
  }

  /** The objects, each after its gap. */
  function Joined(gaps: seq<string>, objects: seq<string>): string
    requires |gaps| == |objects|
  {
    if objects == [] then ""
    else Joined(gaps[..|gaps| - 1], objects[..|objects| - 1]) + gaps[|gaps| - 1] + objects[|objects| - 1]
  }

  lemma {:induction false} JoinedIsFound(gaps: seq<string>, objects: seq<string>)
    requires |gaps| == |objects|
    requires (forall i :: 0 <= i < |gaps| ==> BraceFree(gaps[i])) && forall i :: 0 <= i < |objects| ==>
             IsObject(objects[i])
    ensures var text := Joined(gaps, objects);
            Scan(text).depth == 0 && BalancedObjects(text) == objects && SpansLieIn(text)
  {
    hide Scan, IsObject, BraceFree, Parts;
    if objects == [] {
      NothingFound();
    } else {
      var n := |objects| - 1;
      JoinedIsFound(gaps[..n], objects[..n]);
      OneMoreObject(Joined(gaps[..n], objects[..n]), gaps[n], objects[n]);
    }
  }

  lemma NothingFound()
    ensures Scan("").depth == 0 && BalancedObjects("") == [] && SpansLieIn("")
  {
  }

  lemma OneMoreObject(before: string, gap: string, braced: string)
    requires Scan(before).depth == 0 && SpansLieIn(before) && BraceFree(gap) && IsObject(braced)
    ensures var text := before + gap + braced;
            Scan(text).depth == 0 && SpansLieIn(text) && BalancedObjects(text) == BalancedObjects(before) + [braced]
  {
    hide Scan, IsObject, BraceFree;
    GapIsSkipped(before, gap);
    ObjectIsFound(before + gap, braced);
    var text := before + gap + braced;
    var spans, span := Scan(before).spans, (|before + gap|, |text|);
    assert Scan(text).spans == spans + [span];
    PartsAppend(before, gap + braced, spans);
    assert text == before + (gap + braced);
    assert Part(text, span) == braced;
  }

  ghost predicate SpansLieIn(text: string) {
    forall i :: 0 <= i < |Scan(text).spans| ==> Scan(text).spans[i].0 <= Scan(text).spans[i].1 <= |text|
  }

  lemma PartAppend(text: string, more: string, span: Span)
    requires span.0 <= span.1 <= |text|
    ensures Part(text + more, span) == Part(text, span)
  {
    assert (text + more)[span.0..span.1] == text[span.0..span.1];
  }

  lemma PartsAppend(text: string, more: string, spans: seq<Span>)
    requires forall i :: 0 <= i < |spans| ==> spans[i].0 <= spans[i].1 <= |text|
    ensures Parts(text + more, spans) == Parts(text, spans)
  {
    hide Part;
    forall i | 0 <= i < |spans|
      ensures Part(text + more, spans[i]) == Part(text, spans[i])
    {
      PartAppend(text, more, spans[i]);
    }
  }

  /** Objects joined by text without braces are found again: exactly those, in order. */
  lemma JoinedObjectsAreFound(gaps: seq<string>, objects: seq<string>, tail: string)
    requires |gaps| == |objects| && BraceFree(tail)
    requires (forall i :: 0 <= i < |gaps| ==> BraceFree(gaps[i])) && forall i :: 0 <= i < |objects| ==>
             IsObject(objects[i])
    ensures BalancedObjects(Joined(gaps, objects) + tail) == objects
  {
    var text := Joined(gaps, objects);
    JoinedIsFound(gaps, objects);
    GapIsSkipped(text, tail);
    PartsAppend(text, tail, Scan(text).spans);
  }

  // ----- any text -----

  /** While something is open, what it is open since: from `start` on, never closed. */
  ghost predicate OpenSince(text: string, s: Scanner) {
    s.depth > 0 ==>
      && s.start.Some? && s.start.value < |text|
      && DepthAt(text, s.start.value) == 0
      && Net(text[s.start.value..]) == s.depth
      && forall i :: s.start.value < i <= |text| ==> Net(text[s.start.value..i]) > 0
  }

  lemma DepthAtPrefix(text: string, c: char, i: nat)
    requires i <= |text|
    ensures DepthAt(text + [c], i) == DepthAt(text, i)
  {
    assert (text + [c])[..i] == text[..i];
  }

  lemma OpenGrows(text: string, c: char)
    requires OpenSince(text, Scan(text))
    ensures OpenSince(text + [c], Scan(text + [c]))
  {
    hide Scan, Net;
    var s, s', text' := Scan(text), Scan(text + [c]), text + [c];
    ScanLast(text, c);
    if s'.depth > 0 {
      var a := s'.start.value;
      DepthAtPrefix(text, c, a);
      NetSince(text, c, a);
      if s.depth == 0 {
        assert text[..|text|] == text && text[a..] == "";
        NetOfNothing();
      }
      forall i | a < i <= |text'|
        ensures Net(text'[a..i]) > 0
      {
        if i > |text| {
          assert text'[a..i] == text'[a..];
        }
      }
    }
  }

  lemma NetSince(text: string, c: char, a: nat)
    requires a <= |text|
    ensures Net((text + [c])[a..]) == Net(text[a..]) + if c == '{' then 1 else if c == '}' then -1 else 0
    ensures forall i :: a <= i <= |text| ==> Net((text + [c])[a..i]) == Net(text[a..i])
  {
    var text' := text + [c];
    assert text'[a..] == text[a..] + [c];
    NetLast(text[a..], c);
    assert forall i :: a <= i <= |text| ==> text'[a..i] == text[a..i];
  }

  /** The spans found are top-level objects, each after the end of the one before. */
  ghost predicate Found(text: string, spans: seq<Span>) {
    && (forall i :: 0 <= i < |spans| ==> TopLevel(text, spans[i]))
    && forall i, j :: 0 <= i < j < |spans| ==> spans[i].1 <= spans[j].0
  }

  lemma TopLevelStays(text: string, c: char, span: Span)
    requires span.1 <= |text|
    ensures TopLevel(text + [c], span) <==> TopLevel(text, span)
  {
    if span.0 < span.1 {
      DepthAtPrefix(text, c, span.0);
      assert (text + [c])[span.0..span.1] == text[span.0..span.1];
    }
  }

  /** What closes last: the object open since `start`. */
  lemma ClosedIsObject(text: string, c: char)
    requires OpenSince(text, Scan(text)) && c == '}' && Scan(text).depth == 1
    ensures Scan(text).start.Some? && TopLevel(text + [c], (Scan(text).start.value, |text| + 1))
  {
    hide Scan, Net, IsObject;
    var a := Scan(text).start.value;
    ClosingMakesObject(text, c, a);
    DepthAtPrefix(text, c, a);
    assert (text + [c])[a..|text| + 1] == text[a..] + [c];
  }

  lemma ClosingMakesObject(text: string, c: char, a: nat)
    requires a < |text| && c == '}' && Net(text[a..]) == 1
    requires forall i :: a < i <= |text| ==> Net(text[a..i]) > 0
    ensures IsObject(text[a..] + [c])
  {
    var braced := text[a..] + [c];
    NetLast(text[a..], c);
    forall i | 0 < i < |braced|
      ensures Net(braced[..i]) > 0
    {
      assert braced[..i] == text[a..a + i];
    }
  }

  /** Where the last found object ends, and what is open begins no earlier. */
  ghost predicate Later(s: Scanner) {
    forall i :: 0 <= i < |s.spans| ==> (s.depth > 0 && s.start.Some? ==> s.spans[i].1 <= s.start.value)
  }

  lemma {:induction false} ScanFindsTopLevel(text: string)
    ensures var s := Scan(text); OpenSince(text, s) && Found(text, s.spans) && Later(s)
  {
    if text != "" {
      var n := |text| - 1;
      var front, c := text[..n], text[n];
      assert text == front + [c];
      ScanFindsTopLevel(front);
      OpenGrows(front, c);
      ScanLast(front, c);
      var s, s' := Scan(front), Scan(text);
      forall i | 0 <= i < |s.spans|
        ensures TopLevel(text, s.spans[i])
      {
        TopLevelStays(front, c, s.spans[i]);
      }
      if c == '}' && s.depth == 1 {
        ClosedIsObject(front, c);
      }
    }
  }

  /** Within a top-level object nothing else is top-level, and it is found when it ends. */
  lemma TopLevelIsFound(text: string, span: Span)
    requires TopLevel(text, span)
    ensures span in Scan(text[..span.1]).spans
  {
    var before, braced := text[..span.0], text[span.0..span.1];
    assert text[..span.1] == before + braced;
    ObjectIsFound(before, braced);
    assert (Scan(before).spans + [span])[|Scan(before).spans|] == span;
  }

  lemma {:induction false} FoundStays(text: string, n: nat, span: Span)
    requires n <= |text| && span in Scan(text[..n]).spans
    ensures span in Scan(text).spans
    decreases |text| - n
  {
    if n == |text| {
      assert text[..n] == text;
    } else {
      assert text[..n + 1] == text[..n] + [text[n]];
      ScanLast(text[..n], text[n]);
      FoundStays(text, n + 1, span);
    }
  }

  /** On any text at all: the spans found are exactly the top-level objects, in order and disjoint. */
  lemma ScanFindsExactlyTheTopLevel(text: string)
    ensures var spans := Scan(text).spans;
            && (forall span :: span in spans <==> TopLevel(text, span))
            && (forall i, j :: 0 <= i < j < |spans| ==> spans[i].1 <= spans[j].0)
  {
    ScanFindsTopLevel(text);
    forall span: Span | TopLevel(text, span)
      ensures span in Scan(text).spans
    {
      TopLevelIsFound(text, span);
      FoundStays(text, span.1, span);
    }
  }
}
