/** The outline of a text: its headings with their paths and offsets. */
module Outline {
  import opened Outcomes
  import opened Headings
  import opened DocumentLoader

  datatype Item = Item(level: nat, title: string, path: string, offset: nat)

  function ItemAt(lines: seq<string>, k: nat): Item
    requires k < |lines| && IsHeading(lines[k])
  {
    var heading := ParseHeading(lines[k]).value;
    Item(heading.level, heading.title, PathText(StackAfter(lines, k + 1)), LineStart(lines, k))
  }

  /** One item per heading line among the first k lines, in order. */
  function ItemsOf(lines: seq<string>, k: nat): seq<Item>
    requires k <= |lines|
  {
    if k == 0 then []
    else ItemsOf(lines, k - 1) + if IsHeading(lines[k - 1]) then [ItemAt(lines, k - 1)] else []
  }

  method ExtractOutline(text: string) returns (items: seq<Item>)
    ensures items == ItemsOf(Lines(text), |Lines(text)|)
  {
    hide ParseHeading, Pop, PathText;
    var lines := Lines(text);
    var stack: seq<Heading>, offset := [], 0;
    items := [];
    var k := 0;
    while k < |lines|
      invariant 0 <= k <= |lines|
      invariant stack == StackAfter(lines, k)
      invariant offset == LineStart(lines, k)
      invariant items == ItemsOf(lines, k)
    {
      var heading := ParseHeading(lines[k]);
      if heading.Some? {
        stack := PushHeading(stack, heading.value);
        items := items + [Item(heading.value.level, heading.value.title, PathText(stack), offset)];
      }
      offset := offset + |lines[k]| + 1;
      k := k + 1;
    }
  }

  /** The item is the heading of the line that starts at its offset. */
  ghost predicate ItemInText(text: string, item: Item) {
    exists line, tail ::
      && item.offset <= |text| && text[item.offset..] == line + tail
      && (item.offset == 0 || text[item.offset - 1] == '\n')
      && '\n' !in line && (tail == "" || tail[0] == '\n')
      && ParseHeading(line) == Some(Heading(item.level, item.title))
  }

  lemma {:induction false} LinesHaveNoBreak(text: string, k: nat)
    requires k < |Lines(text)|
    ensures '\n' !in Lines(text)[k]
  {
    if text != "" {
      if k > 0 {
        LinesHaveNoBreak(text[1..], if text[0] == '\n' then k - 1 else k);
      } else if text[0] != '\n' {
        LinesHaveNoBreak(text[1..], 0);
      }
    }
  }

  lemma {:induction false} LineInText(text: string, k: nat)
    requires k < |Lines(text)|
    ensures var lines := Lines(text); var start := LineStart(lines, k);
            && start + |lines[k]| <= |text| && text[start..start + |lines[k]|] == lines[k]
            && (start + |lines[k]| < |text| ==> text[start + |lines[k]|] == '\n')
            && (start > 0 ==> text[start - 1] == '\n')
  {
    hide Lines, Join, LineStart;
    JoinLines(text);
    LineInJoined(Lines(text), k);
  }

  lemma LineInJoined(lines: seq<string>, k: nat)
    requires k < |lines|
    ensures var text, start := Join(lines), LineStart(lines, k);
            && start + |lines[k]| <= |text| && text[start..start + |lines[k]|] == lines[k]
            && (start + |lines[k]| < |text| ==> text[start + |lines[k]|] == '\n')
            && (start > 0 ==> text[start - 1] == '\n')
  {
    hide Join;
    JoinSlice(lines, k, k + 1);
    OneLine(lines, k);
    LineEnd(lines, k);
    if k > 0 {
      LineEnd(lines, k - 1);
    }
  }

  lemma OneLine(lines: seq<string>, k: nat)
    requires k < |lines|
    ensures Join(lines[k..k + 1]) == lines[k]
  {
  }

  lemma LineEnd(lines: seq<string>, k: nat)
    requires k < |lines|
    ensures LineStart(lines, k + 1) - 1 <= |Join(lines)|
    ensures LineStart(lines, k + 1) - 1 < |Join(lines)| ==> Join(lines)[LineStart(lines, k + 1) - 1] == '\n'
    ensures k + 1 < |lines| ==> LineStart(lines, k + 1) - 1 < |Join(lines)|
  {
    PrefixOfJoin(lines, k + 1);
    LineStartIsLength(lines, k + 1);
    if k + 1 < |lines| {
      JoinAppend(lines[..k + 1], lines[k + 1..]);
      assert lines[..k + 1] + lines[k + 1..] == lines;
    } else {
      assert lines[..k + 1] == lines;
    }
  }

  lemma {:induction false} ItemStandsInText(text: string, k: nat)
    requires k < |Lines(text)| && IsHeading(Lines(text)[k])
    ensures ItemInText(text, ItemAt(Lines(text), k))
  {
    hide ParseHeading;
    var lines := Lines(text);
    var start := LineStart(lines, k);
    LineInText(text, k);
    LinesHaveNoBreak(text, k);
    var line, tail := lines[k], text[start + |lines[k]|..];
    assert text[start..] == line + tail;
  }

  /** Every item of the outline stands where it says, as the heading it says. */
  lemma {:induction false} OutlineStandsInText(text: string, k: nat, i: nat)
    requires k <= |Lines(text)| && i < |ItemsOf(Lines(text), k)|
    ensures ItemInText(text, ItemsOf(Lines(text), k)[i])
  {
    hide ParseHeading, ItemInText, ItemAt;
    if i < |ItemsOf(Lines(text), k - 1)| {
      OutlineStandsInText(text, k - 1, i);
    } else {
      ItemStandsInText(text, k - 1);
    }
  }

  /** The last item before a line; a section that follows a heading has the path of that
      heading's item. */
  lemma {:induction false} LastItemPath(lines: seq<string>, k: nat)
    requires k <= |lines|
    ensures ItemsOf(lines, k) == [] ==> StackAfter(lines, k) == []
    ensures ItemsOf(lines, k) != [] ==> ItemsOf(lines, k)[|ItemsOf(lines, k)| - 1].path == PathText(StackAfter(lines, k))
  {
    hide ParseHeading, PathText;
    if k > 0 {
      LastItemPath(lines, k - 1);
    }
  }

  /** The outline and the sections agree: a section's path is the path of the last outline
      item before it, and absent if there is none or if that path is empty. */
  lemma {:induction false} SectionPathIsLastItem(text: string, i: nat)
    requires i < |SpansOf(Lines(text))|
    ensures var lines, span := Lines(text), SpansOf(Lines(text))[i];
            && span.from <= |lines|
            && var before := ItemsOf(lines, span.from);
            span.path == if before == [] then None else PathOption(before[|before| - 1].path)
  {
    hide ParseHeading, StackAfter, SpansOf, ItemsOf;
    var lines := Lines(text);
    SectionsAreRuns(lines);
    LastItemPath(lines, SpansOf(lines)[i].from);
  }
}
