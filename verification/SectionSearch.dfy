/** When the forward search of the chunker is exact: what it finds is the true position of every
    section exactly if no section's content occurs in the gap before that position. */
module SectionSearch {
  import opened Outcomes
  import opened Text
  import opened Headings
  import opened DocumentLoader
  import opened Chunking
  import opened LosslessChunking

  /** Where section k - 1 truly ends. */
  function PrevTrueEnd(sections: seq<Section>, starts: seq<nat>, k: nat): nat
    requires |starts| == |sections| && k <= |sections|
  {
    if k == 0 then 0 else starts[k - 1] + |sections[k - 1].content|
  }

  /** The content of section k does not occur between the true end of the section before it
      and its own true start. */
  predicate GapIsFree(text: string, sections: seq<Section>, starts: seq<nat>, k: nat)
    requires |starts| == |sections| && k < |sections|
  {
    forall j :: PrevTrueEnd(sections, starts, k) <= j < starts[k] ==> !OccursAt(text, sections[k].content, j)
  }

  /** Where the search for section k starts. */
  function SearchedFrom(bounds: seq<Bound>, k: nat, from: nat): nat
    requires k <= |bounds|
  {
    if k == 0 then from else bounds[k - 1].end
  }

  /** Each located span is the first occurrence after the span before it. */
  lemma {:induction false} LocatedAreFirst(text: string, sections: seq<Section>, i: nat, from: nat, k: nat)
    requires i <= |sections| && from <= |text| && Located(text, sections, i, from).Ok?
    requires k < |Located(text, sections, i, from).value|
    ensures var bounds := Located(text, sections, i, from).value;
            && |bounds| == |sections| - i
            && SearchedFrom(bounds, k, from) <= |text|
            && Find(text, sections[i + k].content, SearchedFrom(bounds, k, from)) == Some(bounds[k].start)
            && bounds[k].end == bounds[k].start + |sections[i + k].content|
    decreases |sections| - i
  {
    hide Find, OccursAt;
    var bounds := Located(text, sections, i, from).value;
    if i < |sections| {
      var start := Find(text, sections[i].content, from).value;
      FoundEnds(text, sections[i].content, from);
      var end := start + |sections[i].content|;
      var rest := Located(text, sections, i + 1, end).value;
      assert bounds == [Bound(sections[i].path, start, end)] + rest;
      if k > 0 {
        LocatedAreFirst(text, sections, i + 1, end, k - 1);
      } else {
        LocatedCount(text, sections, i + 1, end);
      }
    }
  }

  lemma {:induction false} LocatedCount(text: string, sections: seq<Section>, i: nat, from: nat)
    requires i <= |sections| && from <= |text| && Located(text, sections, i, from).Ok?
    ensures |Located(text, sections, i, from).value| == |sections| - i
    decreases |sections| - i
  {
    hide Find, OccursAt;
    if i < |sections| {
      FoundEnds(text, sections[i].content, from);
      LocatedCount(text, sections, i + 1, Find(text, sections[i].content, from).value + |sections[i].content|);
    }
  }

  lemma {:induction false} FoundEnds(text: string, pattern: string, from: nat)
    requires from <= |text| && Find(text, pattern, from).Some?
    ensures Find(text, pattern, from).value + |pattern| <= |text|
  {
    assert OccursAt(text, pattern, Find(text, pattern, from).value);
  }

  /** With free gaps up to section k, the search for it starts where the section before it
      truly ends, and finds it. */
  lemma {:induction false} FreeGapsFind(text: string, sections: seq<Section>, starts: seq<nat>, k: nat)
    requires Placed(text, sections, starts) && Located(text, sections, 0, 0).Ok? && k < |sections|
    requires forall l :: 0 <= l <= k ==> GapIsFree(text, sections, starts, l)
    ensures |Located(text, sections, 0, 0).value| == |sections|
    ensures Located(text, sections, 0, 0).value[k].start == starts[k]
  {
    hide Located, OccursAt, Find;
    var bounds := Located(text, sections, 0, 0).value;
    LocatedCount(text, sections, 0, 0);
    LocatedAreFirst(text, sections, 0, 0, k);
    if k > 0 {
      FreeGapsFind(text, sections, starts, k - 1);
      LocatedAreFirst(text, sections, 0, 0, k - 1);
    }
    assert SearchedFrom(bounds, k, 0) == PrevTrueEnd(sections, starts, k);
    FirstInFreeGap(text, sections, starts, k);
  }

  lemma {:induction false} FirstInFreeGap(text: string, sections: seq<Section>, starts: seq<nat>, k: nat)
    requires Placed(text, sections, starts) && k < |sections| && PrevTrueEnd(sections, starts, k) <= |text|
    ensures GapIsFree(text, sections, starts, k)
       <==> Find(text, sections[k].content, PrevTrueEnd(sections, starts, k)) == Some(starts[k])
  {
    hide Find, OccursAt, Placed;
    PlacedAt(text, sections, starts, k);
    var found := Find(text, sections[k].content, PrevTrueEnd(sections, starts, k));
    if GapIsFree(text, sections, starts, k) {
      assert found.Some? && found.value <= starts[k];
    }
  }

  lemma PlacedAt(text: string, sections: seq<Section>, starts: seq<nat>, k: nat)
    requires Placed(text, sections, starts) && k < |sections|
    ensures |starts| == |sections|
    ensures OccursAt(text, sections[k].content, starts[k]) && PrevTrueEnd(sections, starts, k) <= starts[k]
  {
    hide OccursAt;
  }

  /** The exact condition, for any sections that stand in the text one after the other: the
      search is exact if and only if every gap is free. */
  lemma {:induction false} SearchIsExactIff(text: string, sections: seq<Section>, starts: seq<nat>)
    requires Placed(text, sections, starts)
    ensures Located(text, sections, 0, 0).Ok? && |Located(text, sections, 0, 0).value| == |sections|
    ensures (forall k :: 0 <= k < |sections| ==> Located(text, sections, 0, 0).value[k].start == starts[k])
       <==> forall k :: 0 <= k < |sections| ==> GapIsFree(text, sections, starts, k)
  {
    hide Located, GapIsFree, Find, OccursAt, Placed;
    LocatesAll(text, sections, starts);
    var bounds := Located(text, sections, 0, 0).value;
    if forall k :: 0 <= k < |sections| ==> bounds[k].start == starts[k] {
      forall k | 0 <= k < |sections|
        ensures GapIsFree(text, sections, starts, k)
      {
        LocatedAreFirst(text, sections, 0, 0, k);
        if k > 0 {
          LocatedAreFirst(text, sections, 0, 0, k - 1);
        }
        assert SearchedFrom(bounds, k, 0) == PrevTrueEnd(sections, starts, k);
        FirstInFreeGap(text, sections, starts, k);
      }
    }
    if forall k :: 0 <= k < |sections| ==> GapIsFree(text, sections, starts, k) {
      forall k | 0 <= k < |sections|
        ensures bounds[k].start == starts[k]
      {
        FreeGapsFind(text, sections, starts, k);
      }
    }
  }

  lemma {:induction false} LocatesAll(text: string, sections: seq<Section>, starts: seq<nat>)
    requires Placed(text, sections, starts)
    ensures |starts| == |sections|
    ensures Located(text, sections, 0, 0).Ok? && |Located(text, sections, 0, 0).value| == |sections|
  {
    SectionsAreFound(text, sections, starts, 0, 0);
  }

  /** For every document of the loader, with the true starts of its sections: the search finds
      every section where it is if and only if no section's content occurs at a place that begins
      in the lines left out just before it, its heading and blank lines. */
  lemma LoadedSearchIsExactIff(document: LoadedDocument) returns (starts: seq<nat>)
    requires LoadedBy(document)
    ensures Placed(document.text, document.sections, starts)
    ensures document.sections == SectionsOf(Lines(document.text)) ==>
              InLines(Lines(document.text), SpansOf(Lines(document.text)))
              && starts == TrueStarts(Lines(document.text), SpansOf(Lines(document.text)))
    ensures var located := Located(document.text, document.sections, 0, 0);
            && located.Ok? && |located.value| == |document.sections|
            && ((forall k :: 0 <= k < |document.sections| ==> located.value[k].start == starts[k])
                <==> forall k :: 0 <= k < |document.sections| ==> GapIsFree(document.text, document.sections, starts, k))
  {
    hide LoadedBy, Located, GapIsFree, FoundBefore, SectionsOf, SpansOf, TrueStarts, Placed;
    starts := LoadedSectionsAreFound(document);
    SearchIsExactIff(document.text, document.sections, starts);
  }

  // ---- A document for which it is not exact -------------------------------------------------------

  const ECHO := "# Refund\nRefund"

  /** The loader makes of this document one section: the line after the heading. */
  lemma EchoHasOneSection()
    ensures LoadedBy(LoadedDocument(ECHO, [Section(Some("Refund"), "Refund")]))
    ensures SectionsOf(Lines(ECHO)) == [Section(Some("Refund"), "Refund")]
    ensures SpansOf(Lines(ECHO)) == [Span(Some("Refund"), 1, 2)]
  {
    hide Lines, SpansOf, SectionsOf;
    EchoLines();
    EchoSpans();
    EchoSections();
    assert !IsSpace(ECHO[0]);
  }

  lemma EchoSections()
    ensures SpansOf(["# Refund", "Refund"]) == [Span(Some("Refund"), 1, 2)]
    ensures SectionsOf(["# Refund", "Refund"]) == [Section(Some("Refund"), "Refund")]
  {
    hide SpansOf, Lines;
    var lines := ["# Refund", "Refund"];
    EchoSpans();
    assert lines[1..2] == ["Refund"];
    assert SectionsAt(lines, []) == [];
    assert [Span(Some("Refund"), 1, 2)][..0] == [];
  }

  lemma EchoLines()
    ensures Lines(ECHO) == ["# Refund", "Refund"]
  {
    hide Lines;
    LinesThen("# Refund", "Refund");
    LinesOfOne("Refund");
    assert ECHO == "# Refund" + "\n" + "Refund";
  }

  lemma EchoHeading()
    ensures ParseHeading("# Refund") == Some(Heading(1, "Refund"))
    ensures !IsHeading("Refund")
  {
    var line := "# Refund";
    assert line[1..] == " " + "Refund" + "";
    assert HeadingShape(line, 1, " ", "Refund", "");
    ShapeGivesHeading(line, 1, " ", "Refund", "");
    assert Strip("Refund") == "Refund";
  }

  lemma EchoSpans()
    ensures SpansOf(["# Refund", "Refund"]) == [Span(Some("Refund"), 1, 2)]
  {
    hide ParseHeading, Join, IsSpaceText, AllSpace;
    var lines := ["# Refund", "Refund"];
    EchoHeading();
    EchoText();
    assert StackAfter(lines, 0) == [];
    assert StackAfter(lines, 1) == [Heading(1, "Refund")];
    assert StackAfter(lines, 2) == [Heading(1, "Refund")];
    assert Scanned(lines, 0) == Progress(0, []);
    assert Scanned(lines, 1) == Progress(1, []);
    assert Scanned(lines, 2) == Progress(1, []);
    assert lines[1..2] == ["Refund"];
  }

  lemma EchoText()
    ensures !IsSpaceText(Join(["Refund"]))
  {
    assert Join(["Refund"])[0] == 'R';
  }

  /** The search stops short for it: it finds the body inside the heading, where the gap before
      the section is not free. */
  lemma SearchMayStopEarly()
    ensures SectionsOf(Lines(ECHO)) == [Section(Some("Refund"), "Refund")]
    ensures Placed(ECHO, SectionsOf(Lines(ECHO)), [9]) && !GapIsFree(ECHO, SectionsOf(Lines(ECHO)), [9], 0)
    ensures Located(ECHO, SectionsOf(Lines(ECHO)), 0, 0) == Ok([Bound(Some("Refund"), 2, 8)])
  {
    hide SectionsOf, Lines, SpansOf, LoadedBy;
    EchoHasOneSection();
    assert OccursAt(ECHO, "Refund", 2) && OccursAt(ECHO, "Refund", 9);
    assert !OccursAt(ECHO, "Refund", 0) && !OccursAt(ECHO, "Refund", 1) by {
      assert ECHO[0] == '#' && ECHO[1] == ' ';
      assert ECHO[0..6][0] == ECHO[0] && ECHO[1..7][0] == ECHO[1];
    }
    assert Find(ECHO, "Refund", 0) == Some(2);
    var sections := [Section(Some("Refund"), "Refund")];
    assert Located(ECHO, sections, 1, 8) == Ok([]);
    LocatedStep(ECHO, sections, 0, 0);
    assert [Bound(Some("Refund"), 2, 8)] + [] == [Bound(Some("Refund"), 2, 8)];
  }
}
