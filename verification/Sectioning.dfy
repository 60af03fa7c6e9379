/** What the sections of a markdown document hold, and its chunks (services/rag/chunk.py). */
module Sectioning {
  import opened Aggregates
  import opened Texts
  import opened Chunking

  // ----- joining and stripping -----

  function Visible(): char -> bool { (c: char) => !IsSpace(c) }

  /** The characters that are not white space, in order. */
  function Ink(s: string): string { Kept(Visible(), s) }

  function InkOf(parts: seq<string>): string {
    if parts == [] then "" else InkOf(parts[..|parts| - 1]) + Ink(parts[|parts| - 1])
  }

  /** `text` is `whole` without the white space around it, and is not empty. */
  ghost predicate Trimmed(text: string, whole: string) {
    && text != "" && !IsSpace(text[0]) && !IsSpace(text[|text| - 1])
    && exists pre, post :: Surrounds(pre, text, post, whole)
  }

  ghost predicate Surrounds(pre: string, text: string, post: string, whole: string) {
    whole == pre + text + post && Ink(pre) == "" && Ink(post) == ""
  }

  lemma {:induction false} StripTrims(s: string) returns (pre: string, post: string)
    ensures Surrounds(pre, Strip(s), post, s)
    ensures Strip(s) != "" ==> !IsSpace(Strip(s)[0]) && !IsSpace(Strip(s)[|Strip(s)| - 1])
    decreases |s|
  {
    hide Ink;
    if s != "" && IsSpace(s[0]) {
      pre, post := StripTrims(s[1..]);
      SpaceBefore(s[0], pre, Strip(s[1..]), post, s[1..]);
      assert s == [s[0]] + s[1..];
      pre := [s[0]] + pre;
    } else if s != "" && IsSpace(s[|s| - 1]) {
      var n := |s| - 1;
      pre, post := StripTrims(s[..n]);
      SpaceAfter(s[n], pre, Strip(s[..n]), post, s[..n]);
      assert s == s[..n] + [s[n]];
      post := post + [s[n]];
    } else {
      pre, post := "", "";
      NoInk();
      assert s == "" + s + "";
    }
  }

  lemma NoInk()
    ensures Ink("") == ""
  {
  }

  lemma SpaceBefore(c: char, pre: string, text: string, post: string, whole: string)
    requires IsSpace(c) && Surrounds(pre, text, post, whole)
    ensures Surrounds([c] + pre, text, post, [c] + whole)
  {
    KeptConcat(Visible(), [c], pre);
    KeptOne(Visible(), c);
    assert [c] + whole == [c] + pre + text + post;
  }

  lemma SpaceAfter(c: char, pre: string, text: string, post: string, whole: string)
    requires IsSpace(c) && Surrounds(pre, text, post, whole)
    ensures Surrounds(pre, text, post + [c], whole + [c])
  {
    KeptConcat(Visible(), post, [c]);
    KeptOne(Visible(), c);
    assert whole + [c] == pre + text + (post + [c]);
  }

  /** Stripping keeps all that is visible; nothing is left exactly if there was nothing. */
  lemma StripKeepsInk(s: string)
    ensures Ink(Strip(s)) == Ink(s)
    ensures Strip(s) == "" <==> Ink(s) == ""
    ensures Strip(s) != "" ==> Trimmed(Strip(s), s)
  {
    hide Strip;
    var pre, post := StripTrims(s);
    KeptConcat(Visible(), pre + Strip(s), post);
    KeptConcat(Visible(), pre, Strip(s));
    if Strip(s) != "" {
      FirstIsInk(Strip(s));
    }
  }

  lemma FirstIsInk(s: string)
    requires s != "" && !IsSpace(s[0])
    ensures Ink(s) != ""
  {
  }

  lemma {:induction false} JoinKeepsInk(separator: string, parts: seq<string>)
    ensures Ink(separator) == "" ==> Ink(Join(separator, parts)) == InkOf(parts)
  {
    hide Ink, Join;
    if parts == [] {
      NothingJoins(separator);
    } else {
      var n := |parts| - 1;
      JoinKeepsInk(separator, parts[..n]);
      LastJoined(separator, parts);
      if n > 0 {
        InkJoins(Join(separator, parts[..n]), separator, parts[n]);
        assert Ink(separator) == "" ==> Ink(Join(separator, parts[..n])) + Ink(separator) == InkOf(parts[..n]);
      } else {
        assert parts[..n] == [] && InkOf(parts[..n]) == "";
        assert "" + parts[n] == parts[n] && "" + Ink(parts[n]) == Ink(parts[n]);
      }
    }
  }

  lemma NothingJoins(separator: string)
    ensures Join(separator, []) == "" && Ink("") == ""
  {
  }

  lemma InkJoins(front: string, separator: string, part: string)
    ensures Ink(front + separator + part) == Ink(front) + Ink(separator) + Ink(part)
  {
    KeptConcat(Visible(), front + separator, part);
    KeptConcat(Visible(), front, separator);
  }

  /** Joining reads from the front, too: a part, the separator, and the rest joined. */
  lemma {:induction false} JoinFromTheFront(separator: string, part: string, rest: seq<string>)
    ensures Join(separator, []) == "" && Join(separator, [part]) == part
    ensures rest != [] ==> Join(separator, [part] + rest) == part + separator + Join(separator, rest)
  {
    if rest != [] {
      var n := |rest| - 1;
      JoinFromTheFront(separator, part, rest[..n]);
      LastJoined(separator, [part] + rest);
      LastJoined(separator, rest);
      hide Join;
      assert ([part] + rest)[..n + 1] == [part] + rest[..n];
      if n == 0 {
        assert rest[..n] == [] && [part] + rest[..n] == [part];
      }
    }
  }

  lemma LastJoined(separator: string, parts: seq<string>)
    requires parts != []
    ensures var n := |parts| - 1;
            Join(separator, parts) == (if n == 0 then "" else Join(separator, parts[..n]) + separator) + parts[n]
  {
  }

  // ----- stretches -----

  /** A stretch of body lines between two headings, or up to an end of the document. */
  ghost predicate Stretch(lines: seq<Line>, a: nat, b: nat) {
    && a <= b <= |lines| && (forall i :: a <= i < b ==> lines[i].Body?)
    && (a == 0 || lines[a - 1].Heading?) && (b == |lines| || lines[b].Heading?)
  }

  /** A stretch with something visible in it. */
  ghost predicate IsWritten(lines: seq<Line>, a: nat, b: nat) {
    Stretch(lines, a, b) && InkOf(BodiesOf(lines, a, b)) != ""
  }

  function BodiesOf(lines: seq<Line>, a: nat, b: nat): seq<string>
    requires a <= b <= |lines|
  {
    seq(b - a, i requires 0 <= i < b - a => if lines[a + i].Body? then lines[a + i].text else "")
  }

  /** The section holds the lines of the stretch, without the white space around them, under the
      headings of the stack where they stand. */
  ghost predicate Carries(lines: seq<Line>, section: Section, a: nat, b: nat)
    requires WellFormed(lines)
  {
    && Stretch(lines, a, b)
    && Trimmed(section.text, Join("\n", BodiesOf(lines, a, b)))
    && section.path == (var path := Join(" > ", Stack(lines[..a])); if path == "" then "(intro)" else path)
  }

  /** Where the lines after the last heading begin. */
  function LastStart(lines: seq<Line>): (s: nat)
    ensures s <= |lines|
  {
    if lines == [] then 0
    else if lines[|lines| - 1].Heading? then |lines|
    else LastStart(lines[..|lines| - 1])
  }

  lemma {:induction false} LastStretch(lines: seq<Line>)
    requires WellFormed(lines)
    ensures var s := LastStart(lines);
            && Stretch(lines, s, |lines|) && Pending(lines) == BodiesOf(lines, s, |lines|)
            && Stack(lines[..s]) == Stack(lines)
  {
    if lines == [] {
      assert lines[..0] == [];
    } else if lines[|lines| - 1].Body? {
      hide Pending, Stack, BodiesOf, Stretch, LastStart;
      LastStretch(lines[..|lines| - 1]);
      OneMoreBody(lines, LastStart(lines[..|lines| - 1]));
    } else {
      assert lines[..|lines|] == lines;
    }
  }

  lemma OneMoreBody(lines: seq<Line>, s: nat)
    requires WellFormed(lines) && lines != [] && lines[|lines| - 1].Body? && s == LastStart(lines[..|lines| - 1])
    requires var m := |lines| - 1;
             && Stretch(lines[..m], s, m) && Pending(lines[..m]) == BodiesOf(lines[..m], s, m)
             && Stack(lines[..m][..s]) == Stack(lines[..m])
    ensures s == LastStart(lines) && Stretch(lines, s, |lines|) && Pending(lines) == BodiesOf(lines, s, |lines|)
    ensures Stack(lines[..s]) == Stack(lines)
  {
    hide Stack, Pending, BodiesOf;
    var m := |lines| - 1;
    assert lines[..m][..s] == lines[..s];
    BodyAdded(lines, s);
    StretchGrows(lines, s);
    BodyKeepsStack(lines);
  }

  lemma BodyAdded(lines: seq<Line>, s: nat)
    requires lines != [] && lines[|lines| - 1].Body? && s < |lines|
    ensures var m := |lines| - 1; BodiesOf(lines, s, m + 1) == BodiesOf(lines[..m], s, m) + [lines[m].text]
  {
  }

  lemma StretchGrows(lines: seq<Line>, s: nat)
    requires lines != [] && lines[|lines| - 1].Body? && Stretch(lines[..|lines| - 1], s, |lines| - 1)
    ensures Stretch(lines, s, |lines|)
  {
    var m := |lines| - 1;
    assert forall i :: 0 <= i < m ==> lines[..m][i] == lines[i];
  }

  lemma BodyKeepsStack(lines: seq<Line>)
    requires WellFormed(lines) && lines != [] && lines[|lines| - 1].Body?
    ensures Stack(lines) == Stack(lines[..|lines| - 1])
    ensures Pending(lines) == Pending(lines[..|lines| - 1]) + [lines[|lines| - 1].text]
  {
  }

  lemma {:induction false} ClosedAreEarlier(lines: seq<Line>)
    requires WellFormed(lines)
    ensures var s := LastStart(lines);
            Closed(lines) == if s == 0 then [] else Sections(lines[..s - 1])
  {
    if lines != [] {
      var m := |lines| - 1;
      if lines[m].Body? {
        ClosedAreEarlier(lines[..m]);
        var s := LastStart(lines[..m]);
        if s > 0 {
          assert lines[..m][..s - 1] == lines[..s - 1];
        }
      }
    }
  }

  lemma WellFormedPrefix(lines: seq<Line>, n: nat)
    requires WellFormed(lines) && n <= |lines|
    ensures WellFormed(lines[..n])
  {
  }

  /** A document's sections are those before its last heading, and one more if anything is written
      after it. */
  lemma SectionsUnfold(lines: seq<Line>) returns (front: seq<Section>)
    requires WellFormed(lines)
    ensures var s := LastStart(lines);
            && Stretch(lines, s, |lines|)
            && (s > 0 ==> lines[s - 1].Heading? && WellFormed(lines[..s - 1]) && front == Sections(lines[..s - 1]))
            && (s == 0 ==> front == [])
            && if InkOf(BodiesOf(lines, s, |lines|)) == "" then Sections(lines) == front
               else
                 && |Sections(lines)| == |front| + 1 && Sections(lines)[..|front|] == front
                 && Carries(lines, Sections(lines)[|front|], s, |lines|)
                 && Ink(Sections(lines)[|front|].text) == InkOf(BodiesOf(lines, s, |lines|))
  {
    var s := LastStart(lines);
    LastStretch(lines);
    ClosedAreEarlier(lines);
    front := Closed(lines);
    if s > 0 {
      WellFormedPrefix(lines, s - 1);
    }
    hide Closed, Stack, Pending, Strip, Join, Stretch, LastStart, Trimmed;
    var whole := Join("\n", BodiesOf(lines, s, |lines|));
    StripKeepsInk(whole);
    BreaksAreBlank();
    JoinKeepsInk("\n", BodiesOf(lines, s, |lines|));
  }

  lemma BreaksAreBlank()
    ensures Ink("\n") == ""
  {
    KeptOne(Visible(), '\n');
  }

  lemma StretchEarlier(lines: seq<Line>, s: nat, a: nat, b: nat)
    requires 0 < s <= |lines| && lines[s - 1].Heading?
    ensures b < s ==> (Stretch(lines, a, b) <==> Stretch(lines[..s - 1], a, b))
    ensures b < s && a <= b ==> BodiesOf(lines, a, b) == BodiesOf(lines[..s - 1], a, b)
  {
  }

  lemma CarriesEarlier(lines: seq<Line>, s: nat, section: Section, a: nat, b: nat)
    requires WellFormed(lines) && 0 < s <= |lines| && lines[s - 1].Heading? && WellFormed(lines[..s - 1])
    requires Carries(lines[..s - 1], section, a, b)
    ensures Carries(lines, section, a, b) && b < s
  {
    hide Trimmed, Join, Stack;
    StretchEarlier(lines, s, a, b);
    assert lines[..s - 1][..a] == lines[..a];
  }

  lemma StretchIsEarlierOrLast(lines: seq<Line>, s: nat, a: nat, b: nat)
    requires Stretch(lines, s, |lines|) && Stretch(lines, a, b)
    ensures (a == s && b == |lines|) || (s > 0 && b < s)
  {
  }

  /** Sections are stretches: one for each stretch in which anything is written, in order, and no
      others. */
  lemma {:induction false} SectionsAreStretches(lines: seq<Line>) returns (at: seq<(nat, nat)>)
    requires WellFormed(lines)
    ensures At(lines, Sections(lines), at)
    decreases |lines|
  {
    hide Sections, Stretch, Carries, BodiesOf, InkOf, LastStart, At;
    var s := LastStart(lines);
    var front := SectionsUnfold(lines);
    var earlier := [];
    if s > 0 {
      earlier := SectionsAreStretches(lines[..s - 1]);
    }
    at := StretchesUpToTheEnd(lines, s, front, earlier);
  }

  /** The sections are the stretches in which anything is written, one each, in order. */
  ghost predicate At(lines: seq<Line>, sections: seq<Section>, at: seq<(nat, nat)>)
    requires WellFormed(lines)
  {
    && |at| == |sections|
    && (forall k :: 0 <= k < |at| ==> Carries(lines, sections[k], at[k].0, at[k].1))
    && (forall j, k :: 0 <= j < k < |at| ==> at[j].1 < at[k].0)
    && forall a: nat, b: nat :: IsWritten(lines, a, b) ==> (a, b) in at
  }

  lemma StretchBounds(lines: seq<Line>, s: nat)
    requires Stretch(lines, s, |lines|)
    ensures s <= |lines|
  {
  }

  lemma StretchesUpToTheEnd(lines: seq<Line>, s: nat, front: seq<Section>, earlier: seq<(nat, nat)>)
    returns (at: seq<(nat, nat)>)
    requires WellFormed(lines) && Stretch(lines, s, |lines|)
    requires if s > 0 then lines[s - 1].Heading? && WellFormed(lines[..s - 1]) && At(lines[..s - 1], front, earlier)
             else front == [] && earlier == []
    requires if InkOf(BodiesOf(lines, s, |lines|)) == "" then Sections(lines) == front
             else
               && |Sections(lines)| == |front| + 1 && Sections(lines)[..|front|] == front
               && Carries(lines, Sections(lines)[|front|], s, |lines|)
    ensures At(lines, Sections(lines), at)
  {
    StretchBounds(lines, s);
    hide Sections, Stretch, Carries, BodiesOf, InkOf, At, AtBefore, IsWritten, WellFormed;
    EarlierStretches(lines, s, front, earlier);
    at := earlier;
    if InkOf(BodiesOf(lines, s, |lines|)) != "" {
      at := earlier + [(s, |lines|)];
    }
    AllStretches(lines, s, front, earlier, Sections(lines), at);
  }

  /** What holds of the sections before the last heading, said of the whole document. */
  ghost predicate AtBefore(lines: seq<Line>, s: nat, sections: seq<Section>, at: seq<(nat, nat)>)
    requires WellFormed(lines)
  {
    && |at| == |sections|
    && (forall k :: 0 <= k < |at| ==> Carries(lines, sections[k], at[k].0, at[k].1) && at[k].1 < s)
    && (forall j, k :: 0 <= j < k < |at| ==> at[j].1 < at[k].0)
    && forall a: nat, b: nat :: b < s && IsWritten(lines, a, b) ==> (a, b) in at
  }

  lemma EarlierStretches(lines: seq<Line>, s: nat, front: seq<Section>, earlier: seq<(nat, nat)>)
    requires WellFormed(lines) && s <= |lines|
    requires if s > 0 then lines[s - 1].Heading? && WellFormed(lines[..s - 1]) && At(lines[..s - 1], front, earlier)
             else front == [] && earlier == []
    ensures AtBefore(lines, s, front, earlier)
  {
    hide Stretch, Carries, BodiesOf, InkOf, IsWritten;
    if s > 0 {
      forall k | 0 <= k < |earlier|
        ensures Carries(lines, front[k], earlier[k].0, earlier[k].1) && earlier[k].1 < s
      {
        CarriesEarlier(lines, s, front[k], earlier[k].0, earlier[k].1);
      }
      forall a: nat, b: nat | b < s && IsWritten(lines, a, b)
        ensures (a, b) in earlier
      {
        WrittenEarlier(lines, s, a, b);
      }
    }
  }

  lemma WrittenEarlier(lines: seq<Line>, s: nat, a: nat, b: nat)
    requires 0 < s <= |lines| && lines[s - 1].Heading? && b < s && IsWritten(lines, a, b)
    ensures IsWritten(lines[..s - 1], a, b)
  {
    hide InkOf, BodiesOf;
    StretchEarlier(lines, s, a, b);
  }

  lemma AllStretches(lines: seq<Line>, s: nat, front: seq<Section>, earlier: seq<(nat, nat)>, sections: seq<Section>,
      at: seq<(nat, nat)>)
    requires WellFormed(lines) && Stretch(lines, s, |lines|) && AtBefore(lines, s, front, earlier) && s <= |lines|
    requires if InkOf(BodiesOf(lines, s, |lines|)) == "" then sections == front && at == earlier
             else
               && |sections| == |front| + 1 && sections[..|front|] == front && at == earlier + [(s, |lines|)]
               && Carries(lines, sections[|front|], s, |lines|)
    ensures At(lines, sections, at)
  {
    hide Stretch, Carries, BodiesOf, InkOf, IsWritten;
    forall k | 0 <= k < |at|
      ensures Carries(lines, sections[k], at[k].0, at[k].1)
    {
      if k < |front| {
        assert sections[k] == front[k] && at[k] == earlier[k];
      }
    }
    forall a: nat, b: nat | IsWritten(lines, a, b)
      ensures (a, b) in at
    {
      WrittenIsEarlierOrLast(lines, s, a, b);
      if b < s {
        assert (a, b) in earlier;
      } else if |at| > |earlier| {
        assert at[|earlier|] == (a, b);
      }
    }
  }

  lemma WrittenIsEarlierOrLast(lines: seq<Line>, s: nat, a: nat, b: nat)
    requires Stretch(lines, s, |lines|) && IsWritten(lines, a, b)
    ensures s <= |lines| && (b >= s ==> a == s && b == |lines| && InkOf(BodiesOf(lines, s, |lines|)) != "")
  {
    hide InkOf, BodiesOf;
    StretchIsEarlierOrLast(lines, s, a, b);
  }

  // ----- nothing written is lost -----

  /** What is visible in the body lines, in order. */
  function Written(lines: seq<Line>): string {
    if lines == [] then ""
    else
      var last := lines[|lines| - 1];
      Written(lines[..|lines| - 1]) + if last.Body? then Ink(last.text) else ""
  }

  function TextsOf(sections: seq<Section>): seq<string> {
    seq(|sections|, k requires 0 <= k < |sections| => sections[k].text)
  }

  lemma {:induction false} WrittenConcat(xs: seq<Line>, ys: seq<Line>)
    ensures Written(xs + ys) == Written(xs) + Written(ys)
  {
    if ys == [] {
      assert xs + ys == xs;
    } else {
      assert (xs + ys)[..|xs + ys| - 1] == xs + ys[..|ys| - 1];
      WrittenConcat(xs, ys[..|ys| - 1]);
    }
  }

  lemma {:induction false} WrittenBodies(lines: seq<Line>, a: nat, b: nat)
    requires a <= b <= |lines| && forall i :: a <= i < b ==> lines[i].Body?
    ensures Written(lines[a..b]) == InkOf(BodiesOf(lines, a, b))
    decreases b
  {
    hide Ink, Written, BodiesOf, InkOf;
    if a < b {
      WrittenBodies(lines, a, b - 1);
      BodyWritten(lines, a, b);
    } else {
      NothingWritten(lines, a);
    }
  }

  lemma NothingWritten(lines: seq<Line>, a: nat)
    requires a <= |lines|
    ensures Written(lines[a..a]) == "" && InkOf(BodiesOf(lines, a, a)) == ""
  {
  }

  lemma BodyWritten(lines: seq<Line>, a: nat, b: nat)
    requires a < b <= |lines| && lines[b - 1].Body?
    ensures Written(lines[a..b]) == Written(lines[a..b - 1]) + Ink(lines[b - 1].text)
    ensures InkOf(BodiesOf(lines, a, b)) == InkOf(BodiesOf(lines, a, b - 1)) + Ink(lines[b - 1].text)
  {
    hide Ink, InkOf, BodiesOf;
    assert lines[a..b][..b - a - 1] == lines[a..b - 1];
    BodyInk(lines, a, b);
  }

  lemma BodyInk(lines: seq<Line>, a: nat, b: nat)
    requires a < b <= |lines| && lines[b - 1].Body?
    ensures InkOf(BodiesOf(lines, a, b)) == InkOf(BodiesOf(lines, a, b - 1)) + Ink(lines[b - 1].text)
  {
    hide Ink;
    assert BodiesOf(lines, a, b)[..b - a - 1] == BodiesOf(lines, a, b - 1);
  }

  /** The sections hold everything that is visible in the body lines, once and in order, and nothing
      else. */
  lemma {:induction false} SectionsKeepTheText(lines: seq<Line>)
    requires WellFormed(lines)
    ensures InkOf(TextsOf(Sections(lines))) == Written(lines)
    decreases |lines|
  {
    hide Sections, Stretch, Carries, LastStart, Ink, Written, InkOf, BodiesOf, TextsOf, Trimmed;
    var s := LastStart(lines);
    var front := SectionsUnfold(lines);
    WrittenAfter(lines, s);
    NoTexts();
    if s > 0 {
      SectionsKeepTheText(lines[..s - 1]);
    }
    if InkOf(BodiesOf(lines, s, |lines|)) != "" {
      TextsAdded(Sections(lines), |front|);
    }
  }

  lemma NoTexts()
    ensures InkOf(TextsOf([])) == ""
  {
  }

  lemma TextsAdded(sections: seq<Section>, n: nat)
    requires |sections| == n + 1
    ensures InkOf(TextsOf(sections)) == InkOf(TextsOf(sections[..n])) + Ink(sections[n].text)
  {
    hide Ink;
    assert TextsOf(sections)[..n] == TextsOf(sections[..n]);
  }

  lemma WrittenAfter(lines: seq<Line>, s: nat)
    requires Stretch(lines, s, |lines|) && (s > 0 ==> s <= |lines| && lines[s - 1].Heading?)
    ensures s <= |lines|
    ensures Written(lines) == (if s > 0 then Written(lines[..s - 1]) else "") + InkOf(BodiesOf(lines, s, |lines|))
  {
    hide *;
    StretchIsBodies(lines, s);
    WrittenBodies(lines, s, |lines|);
    if s > 0 {
      WrittenInParts(lines, s);
    } else {
      assert lines[0..|lines|] == lines;
    }
  }

  lemma WrittenInParts(lines: seq<Line>, s: nat)
    requires 0 < s <= |lines| && lines[s - 1].Heading?
    ensures Written(lines) == Written(lines[..s - 1]) + Written(lines[s..|lines|])
  {
    hide *;
    var front, heading, tail := lines[..s - 1], [lines[s - 1]], lines[s..|lines|];
    assert lines == front + heading + tail;
    WrittenConcat(front + heading, tail);
    WrittenConcat(front, heading);
    HeadingWritesNothing(lines[s - 1]);
    assert Written(front) + "" == Written(front);
  }

  lemma StretchIsBodies(lines: seq<Line>, s: nat)
    requires Stretch(lines, s, |lines|)
    ensures s <= |lines| && forall i :: s <= i < |lines| ==> lines[i].Body?
  {
  }

  lemma HeadingWritesNothing(line: Line)
    requires line.Heading?
    ensures Written([line]) == ""
  {
    assert [line][..0] == [];
    assert Written([line][..0]) == "";
  }

  /** If headings never skip a level, a section's path is the titles of the headings that enclose it,
      as documents are usually read. */
  lemma SectionPathsAreChains(lines: seq<Line>, section: Section, a: nat, b: nat)
    requires WellFormed(lines) && NeverSkips(lines) && Carries(lines, section, a, b)
    ensures section.path
         == (var path := Join(" > ", Titles(Chain(lines[..a]))); if path == "" then "(intro)" else path)
  {
    hide Trimmed, Join, Stack, Chain, Titles;
    BreadcrumbsOfOrderlyHeadings(lines, a);
  }

  // ----- what chunks hold -----

  function ChunkTexts(chunks: seq<Chunk>, a: nat, b: nat): seq<string>
    requires a <= b <= |chunks|
  {
    seq(b - a, i requires 0 <= i < b - a => chunks[a + i].text)
  }

  /** Chunks `a` to `b` are the section: under its path, none too long, and without their overlaps its
      text again. */
  ghost predicate Holds(chunks: seq<Chunk>, a: nat, b: nat, section: Section, project: string, maxChars: nat,
      overlap: nat) {
    && a <= b <= |chunks|
    && (forall j :: a <= j < b ==>
          chunks[j].project == project && chunks[j].section == section.path && |chunks[j].text| <= maxChars)
    && Restored(ChunkTexts(chunks, a, b), overlap) == section.text
  }

  /** Chunking loses nothing: cut at these places, the chunks are the sections, one after another. */
  lemma {:induction false} ChunksHoldTheSections(doc: DocId, project: string, sections: seq<Section>, maxChars: nat,
      overlap: nat)
    returns (cuts: seq<nat>)
    requires overlap < maxChars
    ensures var chunks := ChunksOf(doc, project, sections, maxChars, overlap);
            && |cuts| == |sections| + 1 && cuts[0] == 0 && cuts[|sections|] == |chunks|
            && forall k :: 0 <= k < |sections| ==>
               Holds(chunks, cuts[k], cuts[k + 1], sections[k], project, maxChars, overlap)
  {
    hide Holds, Windows, ChunksOfTexts, Restored;
    if sections == [] {
      cuts := [0];
    } else {
      var n := |sections| - 1;
      var before := ChunksOf(doc, project, sections[..n], maxChars, overlap);
      var windows := Windows(sections[n].text, maxChars, overlap);
      var mine := ChunksOfTexts(doc, project, sections[n].path, windows, |before|);
      var earlier := ChunksHoldTheSections(doc, project, sections[..n], maxChars, overlap);
      assert ChunksOf(doc, project, sections, maxChars, overlap) == before + mine;
      cuts := earlier + [|before + mine|];
      forall k | 0 <= k < |sections|
        ensures Holds(before + mine, cuts[k], cuts[k + 1], sections[k], project, maxChars, overlap)
      {
        if k < n {
          HoldsEarlier(before, mine, cuts[k], cuts[k + 1], sections[k], project, maxChars, overlap);
        } else {
          NewChunksHold(doc, before, sections[n], project, maxChars, overlap);
        }
      }
    }
  }

  lemma HoldsEarlier(before: seq<Chunk>, mine: seq<Chunk>, a: nat, b: nat, section: Section, project: string,
      maxChars: nat, overlap: nat)
    requires Holds(before, a, b, section, project, maxChars, overlap)
    ensures Holds(before + mine, a, b, section, project, maxChars, overlap)
  {
    assert ChunkTexts(before + mine, a, b) == ChunkTexts(before, a, b);
  }

  lemma NewChunksHold(doc: DocId, before: seq<Chunk>, section: Section, project: string, maxChars: nat, overlap: nat)
    requires overlap < maxChars
    ensures var mine := ChunksOfTexts(doc, project, section.path, Windows(section.text, maxChars, overlap), |before|);
            Holds(before + mine, |before|, |before + mine|, section, project, maxChars, overlap)
  {
    hide Windows, Restored;
    var windows := Windows(section.text, maxChars, overlap);
    var mine := ChunksOfTexts(doc, project, section.path, windows, |before|);
    WindowsRestoreTheText(section.text, maxChars, overlap);
    assert ChunkTexts(before + mine, |before|, |before + mine|) == windows;
  }

  // ----- where windows lie -----

  /** `from` is `k` steps after `start`. */
  predicate After(from: nat, start: nat, k: nat, step: nat) { from == start + k * step }

  lemma AfterOne(from: nat, start: nat, k: nat, step: nat)
    ensures k == 0 ==> (After(from, start, k, step) <==> from == start)
    ensures k > 0 ==> (After(from, start, k, step) <==> After(from, start + step, k - 1, step))
  {
    assert k > 0 ==> k * step == step + (k - 1) * step;
  }

  /** Window number `k` of a text that does not fit one begins `k` steps in and is as long as a window
      may be or as the text goes. */
  lemma {:induction false} WindowPlaces(text: string, maxChars: nat, step: nat, start: nat, k: nat, from: nat)
    requires step > 0 && k < |WindowsFrom(text, maxChars, step, start)| && After(from, start, k, step)
    ensures from < |text|
    ensures WindowsFrom(text, maxChars, step, start)[k]
            == text[from..if from + maxChars <= |text| then from + maxChars else |text|]
    decreases k
  {
    hide After;
    AfterOne(from, start, k, step);
    if k > 0 {
      WindowPlaces(text, maxChars, step, start + step, k - 1, from);
    }
  }

  /** There are just enough windows to begin one in every step of the text. */
  lemma {:induction false} WindowCount(text: string, maxChars: nat, step: nat, start: nat, end: nat)
    requires step > 0 && start <= |text| && After(end, start, |WindowsFrom(text, maxChars, step, start)|, step)
    ensures end >= |text| && (start < |text| ==> end - step < |text|)
    decreases |text| - start
  {
    hide After;
    var n := |WindowsFrom(text, maxChars, step, start)|;
    AfterOne(end, start, n, step);
    if start < |text| {
      if start + step <= |text| {
        WindowCount(text, maxChars, step, start + step, end);
        AfterOne(end, start + step, n - 1, step);
      } else {
        AfterOne(end, start + step, 0, step);
      }
    }
  }
}
