/** HTML tables become pipe tables: the rendering, its inverse, and the parser that collects
    the rows. */
module TableMarkdown {
  import opened Outcomes
  import opened Text
  import opened Headings

  // ---- Cells -----------------------------------------------------------------------------------

  function SkipSpace(s: string): (rest: string)
    ensures |rest| <= |s|
  {
    if s != "" && IsSpace(s[0]) then SkipSpace(s[1..]) else s
  }

  /** re.sub(r"\s+", " ", raw) */
  function CollapseSpace(s: string): string
    decreases |s|
  {
    if s == "" then ""
    else if IsSpace(s[0]) then " " + CollapseSpace(SkipSpace(s[1..]))
    else [s[0]] + CollapseSpace(s[1..])
  }

  function CleanText(raw: string): string {
    Strip(CollapseSpace(raw))
  }

  /** replace("|", "\\|") */
  function Escape(s: string): string {
    if s == "" then "" else (if s[0] == '|' then "\\|" else [s[0]]) + Escape(s[1..])
  }

  /** replace("\\|", "|") */
  function Unescape(s: string): string {
    if s == "" then ""
    else if |s| >= 2 && s[0] == '\\' && s[1] == '|' then "|" + Unescape(s[2..])
    else [s[0]] + Unescape(s[1..])
  }

  /** _clean_cell */
  function CleanCell(raw: string): string {
    Escape(CleanText(raw))
  }

  lemma {:induction false} EscapeInverse(s: string)
    ensures Unescape(Escape(s)) == s
    ensures Escape(s) != "" ==> Escape(s)[0] != '|'
  {
    if s != "" {
      EscapeInverse(s[1..]);
      if s[0] == '|' {
        assert Escape(s)[2..] == Escape(s[1..]);
      } else {
        assert Escape(s)[1..] == Escape(s[1..]);
        if |Escape(s)| >= 2 && Escape(s)[0] == '\\' {
          assert Escape(s)[1] == Escape(s[1..])[0];
        }
      }
      assert s == [s[0]] + s[1..];
    }
  }

  lemma {:induction false} StripWithout(s: string, c: char)
    requires c !in s
    ensures c !in Strip(s)
  {
    StripLeftWithout(s, c);
    StripRightWithout(StripLeft(s), c);
  }

  lemma {:induction false} StripLeftWithout(s: string, c: char)
    requires c !in s
    ensures c !in StripLeft(s)
  {
    if s != "" && IsSpace(s[0]) {
      StripLeftWithout(s[1..], c);
    }
  }

  lemma {:induction false} StripRightWithout(s: string, c: char)
    requires c !in s
    ensures c !in StripRight(s)
  {
    if s != "" && IsSpace(s[|s| - 1]) {
      StripRightWithout(s[..|s| - 1], c);
    }
  }

  lemma {:induction false} CollapsedWithout(s: string)
    ensures '\n' !in CollapseSpace(s)
    decreases |s|
  {
    if s != "" {
      CollapsedWithout(if IsSpace(s[0]) then SkipSpace(s[1..]) else s[1..]);
    }
  }

  lemma {:induction false} EscapeWithout(s: string)
    requires '\n' !in s
    ensures '\n' !in Escape(s)
  {
    if s != "" {
      EscapeWithout(s[1..]);
    }
  }

  /** A cleaned cell never breaks its line. */
  lemma CleanCellIsOneLine(raw: string)
    ensures '\n' !in CleanText(raw) && '\n' !in CleanCell(raw)
  {
    CollapsedWithout(raw);
    StripWithout(CollapseSpace(raw), '\n');
    EscapeWithout(CleanText(raw));
  }

  // ---- What a cleaned cell says ----------------------------------------------------------------

  /** A text of words with a gap after each, but the last. */
  function Spaced(words: seq<string>, gaps: seq<string>): string
    requires words != [] && |words| == |gaps| + 1
  {
    if gaps == [] then words[0] else words[0] + gaps[0] + Spaced(words[1..], gaps[1..])
  }

  /** Words have characters and no white space; gaps have white space and nothing else. */
  predicate AreWords(words: seq<string>, gaps: seq<string>) {
    && words != [] && |words| == |gaps| + 1
    && (forall i :: 0 <= i < |words| ==> IsWord(words[i]))
    && (forall i :: 0 <= i < |gaps| ==> gaps[i] != "" && AllSpace(gaps[i]))
  }

  predicate IsWord(word: string) {
    word != "" && forall k :: 0 <= k < |word| ==> !IsSpace(word[k])
  }

  function Singles(n: nat): seq<string> {
    seq(n, i => " ")
  }

  lemma {:induction false} SkipGap(gap: string, rest: string)
    requires AllSpace(gap) && (rest == "" || !IsSpace(rest[0]))
    ensures SkipSpace(gap + rest) == rest
  {
    if gap == "" {
      assert gap + rest == rest;
    } else {
      assert (gap + rest)[1..] == gap[1..] + rest;
      SkipGap(gap[1..], rest);
    }
  }

  lemma {:induction false} CollapseGap(gap: string, rest: string)
    requires gap != "" && AllSpace(gap) && (rest == "" || !IsSpace(rest[0]))
    ensures CollapseSpace(gap + rest) == " " + CollapseSpace(rest)
  {
    assert (gap + rest)[0] == gap[0] && (gap + rest)[1..] == gap[1..] + rest;
    SkipGap(gap[1..], rest);
  }

  lemma {:induction false} CollapseWord(word: string, rest: string)
    requires forall k :: 0 <= k < |word| ==> !IsSpace(word[k])
    ensures CollapseSpace(word + rest) == word + CollapseSpace(rest)
  {
    if word == "" {
      assert word + rest == rest;
    } else {
      assert (word + rest)[0] == word[0] && (word + rest)[1..] == word[1..] + rest;
      CollapseWord(word[1..], rest);
      assert word == [word[0]] + word[1..];
    }
  }

  lemma {:induction false} CollapseSpaced(words: seq<string>, gaps: seq<string>, trail: string)
    requires AreWords(words, gaps) && AllSpace(trail)
    ensures CollapseSpace(Spaced(words, gaps) + trail) == Spaced(words, Singles(|gaps|)) + if trail == "" then "" else " "
  {
    if gaps == [] {
      CollapseWord(words[0], trail);
      if trail != "" {
        CollapseGap(trail, "");
        assert trail + "" == trail;
      }
    } else {
      var rest := Spaced(words[1..], gaps[1..]) + trail;
      assert Spaced(words, gaps) + trail == words[0] + (gaps[0] + rest);
      SpacedStarts(words[1..], gaps[1..]);
      CollapseWord(words[0], gaps[0] + rest);
      CollapseGap(gaps[0], rest);
      CollapseSpaced(words[1..], gaps[1..], trail);
      assert Singles(|gaps|)[1..] == Singles(|gaps| - 1);
    }
  }

  lemma {:induction false} SpacedStarts(words: seq<string>, gaps: seq<string>)
    requires AreWords(words, gaps)
    ensures var text := Spaced(words, gaps); text != "" && !IsSpace(text[0]) && !IsSpace(text[|text| - 1])
  {
    assert IsWord(words[0]);
    if gaps != [] {
      SpacedStarts(words[1..], gaps[1..]);
    }
  }

  /** A cell says its words with one space between, whatever white space stood around them. */
  lemma {:induction false} CleanTextIs(lead: string, words: seq<string>, gaps: seq<string>, trail: string)
    requires AllSpace(lead) && AreWords(words, gaps) && AllSpace(trail)
    ensures CleanText(lead + Spaced(words, gaps) + trail) == Spaced(words, Singles(|gaps|))
  {
    var rest := Spaced(words, gaps) + trail;
    assert lead + Spaced(words, gaps) + trail == lead + rest;
    SpacedStarts(words, gaps);
    CollapseSpaced(words, gaps, trail);
    if lead != "" {
      CollapseGap(lead, rest);
    } else {
      assert lead + rest == rest;
    }
    var text := Spaced(words, Singles(|gaps|));
    SinglesAreWords(words, gaps);
    SpacedStarts(words, Singles(|gaps|));
    var (before, after) := (if lead == "" then "" else " ", if trail == "" then "" else " ");
    assert CollapseSpace(lead + rest) == before + text + after;
    StripsOne(before, text, after);
  }

  lemma SinglesAreWords(words: seq<string>, gaps: seq<string>)
    requires AreWords(words, gaps)
    ensures AreWords(words, Singles(|gaps|))
  {
  }

  lemma {:induction false} StripsOne(before: string, text: string, after: string)
    requires before in {"", " "} && after in {"", " "} && text != "" && !IsSpace(text[0]) && !IsSpace(text[|text| - 1])
    ensures Strip(before + text + after) == text
  {
    var whole := before + text + after;
    if before != "" {
      assert whole[1..] == text + after;
    } else {
      assert whole == text + after;
    }
    assert StripLeft(text + after) == text + after && StripLeft(whole) == text + after;
    assert StripRight(text) == text;
    if after != "" {
      assert (text + after)[..|text + after| - 1] == text;
      assert StripRight(text + after) == StripRight(text);
    } else {
      assert text + after == text;
    }
  }

  /** Every cell that is not blank is such words and gaps. */
  lemma {:induction false} WordsOf(raw: string) returns (lead: string, words: seq<string>, gaps: seq<string>, trail: string)
    requires !AllSpace(raw)
    ensures AllSpace(lead) && AreWords(words, gaps) && AllSpace(trail) && raw == lead + Spaced(words, gaps) + trail
  {
    var first, rest := [raw[0]], raw[1..];
    assert raw == first + rest;
    if AllSpace(rest) {
      lead, words, gaps, trail := "", [first], [], rest;
      assert raw == "" + first + rest;
    } else {
      lead, words, gaps, trail := WordsOf(rest);
      assert IsWord(words[0]);
      if IsSpace(raw[0]) {
        lead := first + lead;
      } else if lead == "" {
        var joined := [first + words[0]] + words[1..];
        assert joined[1..] == words[1..] && IsWord(joined[0]);
        assert Spaced(joined, gaps) == first + Spaced(words, gaps) by { FirstWordGrows(first, words, gaps); }
        words := joined;
        assert raw == "" + Spaced(words, gaps) + trail;
      } else {
        var (all, between) := ([first] + words, [lead] + gaps);
        assert all[1..] == words && between[1..] == gaps;
        assert Spaced(all, between) == first + lead + Spaced(words, gaps);
        assert IsWord(first);
        lead, words, gaps := "", all, between;
        assert raw == "" + Spaced(words, gaps) + trail;
      }
    }
  }

  lemma {:induction false} FirstWordGrows(first: string, words: seq<string>, gaps: seq<string>)
    requires words != [] && |words| == |gaps| + 1
    ensures Spaced([first + words[0]] + words[1..], gaps) == first + Spaced(words, gaps)
  {
    var joined := [first + words[0]] + words[1..];
    assert joined[1..] == words[1..];
    if gaps != [] {
      var rest := Spaced(words[1..], gaps[1..]);
      assert (first + words[0]) + gaps[0] + rest == first + (words[0] + gaps[0] + rest);
    }
  }

  /** A blank cell says nothing. */
  lemma {:induction false} BlankCell(raw: string)
    requires AllSpace(raw)
    ensures CleanText(raw) == ""
  {
    if raw != "" {
      CollapseGap(raw, "");
      assert raw + "" == raw && CollapseSpace(raw) == " ";
      assert StripLeft(" ") == "";
    }
  }

  // ---- Rows -------------------------------------------------------------------------------------

  function Padded(cells: seq<string>, width: nat): (padded: seq<string>)
    ensures |padded| == if width <= |cells| then |cells| else width
    decreases width - |cells|
  {
    if width <= |cells| then cells else Padded(cells + [""], width)
  }

  /** " | ".join(cells) */
  function JoinCells(cells: seq<string>): string {
    if cells == [] then ""
    else if |cells| == 1 then cells[0]
    else cells[0] + " | " + JoinCells(cells[1..])
  }

  /** _render_row */
  function RenderRow(cells: seq<string>, width: nat): string {
    "| " + JoinCells(Padded(cells, width)) + " |"
  }

  /** The parts of a line between pipes that no backslash precedes (section 4.10 of the
      GitHub Flavored Markdown specification). */
  function Segments(s: string, escaped: bool): (segments: seq<string>)
    ensures |segments| >= 1
  {
    if s == "" then [""]
    else if s[0] == '|' && !escaped then [""] + Segments(s[1..], false)
    else Prepend([s[0]], Segments(s[1..], s[0] == '\\'))
  }

  function Prepend(prefix: string, segments: seq<string>): (result: seq<string>)
    requires |segments| >= 1
    ensures |result| == |segments|
  {
    [prefix + segments[0]] + segments[1..]
  }

  /** The text of a cell between two pipes: one space on either side, and escaped pipes. */
  function CellText(segment: string): string {
    if |segment| >= 2 then Unescape(segment[1..|segment| - 1]) else ""
  }

  function ParseRow(line: string): (cells: seq<string>) {
    var segments := Segments(line, false);
    if |segments| < 3 then []
    else seq(|segments| - 2, i requires 0 <= i < |segments| - 2 => CellText(segments[i + 1]))
  }

  function EscapeAll(texts: seq<string>): (cells: seq<string>)
    ensures |cells| == |texts|
  {
    seq(|texts|, i requires 0 <= i < |texts| => Escape(texts[i]))
  }

  lemma PrependTwice(a: string, b: string, segments: seq<string>)
    requires |segments| >= 1
    ensures Prepend(a, Prepend(b, segments)) == Prepend(a + b, segments)
  {
    assert a + (b + segments[0]) == (a + b) + segments[0];
  }

  lemma {:induction false} OtherThen(c: char, s: string, escaped: bool)
    requires c != '|' || escaped
    ensures Segments([c] + s, escaped) == Prepend([c], Segments(s, c == '\\'))
  {
    assert ([c] + s)[1..] == s;
  }

  lemma {:induction false} PipeThen(s: string)
    ensures Segments("|" + s, false) == [""] + Segments(s, false)
  {
    assert ("|" + s)[1..] == s;
  }

  /** Escaped text ends no segment. */
  lemma {:induction false} EscapedStaysTogether(s: string, t: string, escaped: bool)
    requires t != "" && t[0] != '|'
    ensures Segments(Escape(s) + t, escaped) == Prepend(Escape(s), Segments(t, false))
  {
    hide Segments, Prepend;
    if s == "" {
      assert Escape(s) + t == t;
      NothingEscaped(t, escaped);
    } else if s[0] == '|' {
      var rest := Escape(s[1..]) + t;
      EscapedStaysTogether(s[1..], t, false);
      assert Escape(s) + t == "\\" + ("|" + rest);
      OtherThen('\\', "|" + rest, escaped);
      OtherThen('|', rest, true);
      PrependTwice("|", Escape(s[1..]), Segments(t, false));
      PrependTwice("\\", "|" + Escape(s[1..]), Segments(t, false));
      assert "\\" + ("|" + Escape(s[1..])) == Escape(s);
    } else {
      var rest := Escape(s[1..]) + t;
      EscapedStaysTogether(s[1..], t, s[0] == '\\');
      assert Escape(s) + t == [s[0]] + rest;
      OtherThen(s[0], rest, escaped);
      PrependTwice([s[0]], Escape(s[1..]), Segments(t, false));
    }
  }

  lemma {:induction false} NothingEscaped(t: string, escaped: bool)
    requires t != "" && t[0] != '|'
    ensures Segments(t, escaped) == Prepend("", Segments(t, false))
  {
    assert "" + Segments(t, false)[0] == Segments(t, false)[0];
  }

  function Wrapped(texts: seq<string>): (segments: seq<string>)
    ensures |segments| == |texts|
  {
    seq(|texts|, i requires 0 <= i < |texts| => " " + Escape(texts[i]) + " ")
  }

  /** One cell up to the pipe after it. */
  lemma {:induction false} CellThen(text: string, tail: string)
    ensures Segments(" " + Escape(text) + " |" + tail, false) == [" " + Escape(text) + " "] + Segments(tail, false)
  {
    hide Segments;
    var after := " |" + tail;
    assert " " + Escape(text) + " |" + tail == " " + (Escape(text) + after);
    assert after == " " + ("|" + tail);
    OtherThen(' ', Escape(text) + after, false);
    EscapedStaysTogether(text, after, false);
    OtherThen(' ', "|" + tail, false);
    PipeThen(tail);
    assert " " + (Escape(text) + (" " + "")) == " " + Escape(text) + " ";
  }

  /** The cells of a row, each between its spaces. */
  lemma {:induction false} RowSegments(texts: seq<string>)
    requires texts != []
    ensures Segments(" " + JoinCells(EscapeAll(texts)) + " |", false) == Wrapped(texts) + [""]
  {
    hide Segments, Escape;
    if |texts| == 1 {
      CellThen(texts[0], "");
      assert " " + JoinCells(EscapeAll(texts)) + " |" == " " + Escape(texts[0]) + " |" + "";
      NoSegments();
    } else {
      var others := texts[1..];
      assert EscapeAll(texts)[1..] == EscapeAll(others);
      var tail := " " + JoinCells(EscapeAll(others)) + " |";
      assert " " + JoinCells(EscapeAll(texts)) + " |" == " " + Escape(texts[0]) + " |" + tail;
      CellThen(texts[0], tail);
      RowSegments(others);
      assert Wrapped(texts) == [" " + Escape(texts[0]) + " "] + Wrapped(others);
    }
  }

  lemma NoSegments()
    ensures Segments("", false) == [""]
  {
  }

  /** Reading a rendered row back gives exactly its cells, for any cell text. */
  lemma RowRoundTrip(texts: seq<string>)
    requires texts != []
    ensures ParseRow("| " + JoinCells(EscapeAll(texts)) + " |") == texts
  {
    hide Segments, CellText, JoinCells, Escape;
    var line := "| " + JoinCells(EscapeAll(texts)) + " |";
    var rest := " " + JoinCells(EscapeAll(texts)) + " |";
    assert line == "|" + rest;
    PipeThen(rest);
    RowSegments(texts);
    var segments := [""] + (Wrapped(texts) + [""]);
    assert Segments(line, false) == segments;
    forall i | 0 <= i < |texts|
      ensures CellText(segments[i + 1]) == texts[i]
    {
      assert segments[i + 1] == " " + Escape(texts[i]) + " ";
      CellBack(texts[i]);
    }
  }

  lemma {:induction false} CellBack(text: string)
    ensures CellText(" " + Escape(text) + " ") == text
  {
    var segment := " " + Escape(text) + " ";
    assert segment[1..|segment| - 1] == Escape(text);
    EscapeInverse(text);
  }

  lemma {:induction false} PaddedEscapes(texts: seq<string>, width: nat)
    ensures Padded(EscapeAll(texts), width) == EscapeAll(Padded(texts, width))
    decreases width - |texts|
  {
    if width > |texts| {
      PaddedEscapes(texts + [""], width);
      assert EscapeAll(texts) + [""] == EscapeAll(texts + [""]);
    }
  }

  // ---- Tables -------------------------------------------------------------------------------------

  /** A collected row: whether it has a header cell, and its cleaned cells. */
  datatype Row = Row(header: bool, cells: seq<string>)

  function Width(rows: seq<Row>): (width: nat)
    ensures forall i :: 0 <= i < |rows| ==> |rows[i].cells| <= width
  {
    if rows == [] then 0
    else
      var rest, last := Width(rows[..|rows| - 1]), |rows[|rows| - 1].cells|;
      if rest < last then last else rest
  }

  function Repeated(s: string, n: nat): (all: seq<string>)
    ensures |all| == n
  {
    seq(n, i => s)
  }

  function RowLines(rows: seq<Row>, width: nat): (lines: seq<string>)
    ensures |lines| == |rows|
  {
    seq(|rows|, i requires 0 <= i < |rows| => RenderRow(rows[i].cells, width))
  }

  function TableLines(rows: seq<Row>): seq<string>
    requires rows != []
  {
    var width := Width(rows);
    [RenderRow(rows[0].cells, width), RenderRow(Repeated("---", width), width)] + RowLines(rows[1..], width)
  }

  /** _render_table */
  function RenderTable(rows: seq<Row>): string {
    if rows == [] then "" else "\n\n" + Join(TableLines(rows)) + "\n\n"
  }

  /** Reading a rendered table: the cells of its header and of every line after the delimiter. */
  function ParseTable(text: string): seq<seq<string>> {
    if |text| < 4 then []
    else
      var lines := Lines(text[2..|text| - 2]);
      if |lines| < 2 then []
      else [ParseRow(lines[0])] + seq(|lines| - 2, i requires 0 <= i < |lines| - 2 => ParseRow(lines[i + 2]))
  }

  predicate OneLiners(lines: seq<string>) {
    forall i :: 0 <= i < |lines| ==> '\n' !in lines[i]
  }

  /** Splitting joined lines gives the lines back. */
  lemma {:induction false} LinesJoin(lines: seq<string>)
    requires lines != [] && OneLiners(lines)
    ensures Lines(Join(lines)) == lines
  {
    if |lines| == 1 {
      LinesOfOne(lines[0]);
    } else {
      LinesThen(lines[0], Join(lines[1..]));
      LinesJoin(lines[1..]);
    }
  }

  lemma {:induction false} JoinCellsOneLine(cells: seq<string>)
    requires OneLiners(cells)
    ensures '\n' !in JoinCells(cells)
  {
    if |cells| > 1 {
      JoinCellsOneLine(cells[1..]);
    }
  }

  lemma {:induction false} PaddedOneLine(cells: seq<string>, width: nat)
    requires OneLiners(cells)
    ensures OneLiners(Padded(cells, width))
    decreases width - |cells|
  {
    if width > |cells| {
      PaddedOneLine(cells + [""], width);
    }
  }

  lemma RowIsOneLine(cells: seq<string>, width: nat)
    requires OneLiners(cells)
    ensures '\n' !in RenderRow(cells, width)
  {
    PaddedOneLine(cells, width);
    JoinCellsOneLine(Padded(cells, width));
  }

  /** Every cell of the rows is the escape of a text without line breaks. */
  predicate CellsOf(rows: seq<Row>, texts: seq<seq<string>>) {
    && |rows| == |texts|
    && forall i :: 0 <= i < |rows| ==> rows[i].cells == EscapeAll(texts[i]) && OneLiners(texts[i])
  }

  lemma EscapedOneLine(texts: seq<string>)
    requires OneLiners(texts)
    ensures OneLiners(EscapeAll(texts))
  {
    forall i | 0 <= i < |texts|
      ensures '\n' !in Escape(texts[i])
    {
      EscapeWithout(texts[i]);
    }
  }

  lemma {:induction false} RenderedRowReads(texts: seq<string>, width: nat)
    requires width >= 1
    ensures ParseRow(RenderRow(EscapeAll(texts), width)) == Padded(texts, width)
  {
    PaddedEscapes(texts, width);
    RowRoundTrip(Padded(texts, width));
  }

  lemma TableLinesAreLines(rows: seq<Row>, texts: seq<seq<string>>)
    requires rows != [] && CellsOf(rows, texts)
    ensures RenderTable(rows)[2..|RenderTable(rows)| - 2] == Join(TableLines(rows))
    ensures Lines(Join(TableLines(rows))) == TableLines(rows)
  {
    hide RenderRow, Escape;
    var width := Width(rows);
    forall i | 0 <= i < |rows|
      ensures '\n' !in RenderRow(rows[i].cells, width)
    {
      EscapedOneLine(texts[i]);
      RowIsOneLine(rows[i].cells, width);
    }
    RowIsOneLine(Repeated("---", width), width);
    LinesJoin(TableLines(rows));
  }

  function PaddedAll(texts: seq<seq<string>>, width: nat): seq<seq<string>> {
    seq(|texts|, i requires 0 <= i < |texts| => Padded(texts[i], width))
  }

  /** A rendered table is rectangular, and reading it back recovers exactly the cell texts,
      padded to the widest row, for any rows and texts with at least one cell. */
  lemma {:induction false} TableRoundTrip(rows: seq<Row>, texts: seq<seq<string>>)
    requires rows != [] && CellsOf(rows, texts) && Width(rows) >= 1
    ensures ParseTable(RenderTable(rows)) == PaddedAll(texts, Width(rows))
    ensures forall i :: 0 <= i < |texts| ==> |PaddedAll(texts, Width(rows))[i]| == Width(rows)
  {
    hide RenderRow, ParseRow, Width, Lines, Join;
    TableLinesAreLines(rows, texts);
    var width, lines := Width(rows), TableLines(rows);
    RenderedRowReads(texts[0], width);
    forall i | 1 <= i < |rows|
      ensures ParseRow(lines[i + 1]) == Padded(texts[i], width)
    {
      assert lines[i + 1] == RenderRow(rows[i].cells, width);
      RenderedRowReads(texts[i], width);
    }
  }

  /** The delimiter row has one mark per column. */
  lemma DelimiterReads(width: nat)
    requires width >= 1
    ensures ParseRow(RenderRow(Repeated("---", width), width)) == Repeated("---", width)
  {
    assert Escape("---") == "---";
    assert EscapeAll(Repeated("---", width)) == Repeated("---", width);
    RenderedRowReads(Repeated("---", width), width);
  }

  /** Only a table without any cell is not recovered: its rows come back with one empty cell. */
  lemma {:induction false} RecoveredIff(rows: seq<Row>, texts: seq<seq<string>>)
    requires rows != [] && CellsOf(rows, texts)
    ensures ParseTable(RenderTable(rows)) == PaddedAll(texts, Width(rows)) <==> Width(rows) >= 1
  {
    hide RenderRow, ParseRow, Lines, Join;
    if Width(rows) >= 1 {
      TableRoundTrip(rows, texts);
    } else {
      TableLinesAreLines(rows, texts);
      EmptyRowReads();
      assert rows[0].cells == [];
      assert ParseTable(RenderTable(rows))[0] != PaddedAll(texts, 0)[0];
    }
  }

  lemma EmptyRowReads()
    ensures ParseRow(RenderRow([], 0)) == [""]
  {
    var rest := " " + Escape("") + " |" + "";
    assert RenderRow([], 0) == "|" + rest;
    PipeThen(rest);
    CellThen("", "");
    NoSegments();
    assert Escape("") == "" && " " + "" + " " == "  ";
    var segments := Segments(RenderRow([], 0), false);
    assert segments == [""] + (["  "] + [""]);
    assert |segments| == 3 && segments[1] == "  ";
    assert CellText("  ") == Unescape("  "[1..1]) == "";
  }

  // ---- Collecting the rows --------------------------------------------------------------------------

  datatype Tag = Table | Tr | Td | Th | OtherTag

  datatype Event = Open(tag: Tag) | Close(tag: Tag) | Data(text: string) | SelfClosing(tag: Tag)

  /** What the parser has collected so far. */
  datatype Progress = Progress(
    parts: seq<string>, depth: nat, rows: seq<Row>, cells: Option<seq<string>>, header: bool, cell: Option<seq<string>>)

  function Concat(parts: seq<string>): string {
    if parts == [] then "" else Concat(parts[..|parts| - 1]) + parts[|parts| - 1]
  }

  function Opened(s: Progress, tag: Tag): Progress {
    if tag == Table then s.(depth := s.depth + 1, rows := if s.depth == 0 then [] else s.rows)
    else if s.depth != 1 then s
    else if tag == Tr then s.(cells := Some([]), header := false)
    else if tag == Td || tag == Th then s.(cell := Some([]), header := s.header || tag == Th)
    else s
  }

  function Closed(s: Progress, tag: Tag): Progress {
    if tag == Table then
      s.(parts := if s.depth == 1 then s.parts + [RenderTable(s.rows)] else s.parts,
         rows := if s.depth == 1 then [] else s.rows,
         depth := if s.depth == 0 then 0 else s.depth - 1)
    else if s.depth != 1 then s
    else if tag == Td || tag == Th then
      s.(cells := if s.cell.Some? && s.cells.Some? then Some(s.cells.value + [CleanCell(Concat(s.cell.value))]) else s.cells, cell := None)
    else if tag == Tr then
      s.(rows := if s.cells.Some? then s.rows + [Row(s.header, s.cells.value)] else s.rows, cells := None)
    else s
  }

  function Handled(s: Progress, event: Event): Progress {
    match event
    case Open(tag) => Opened(s, tag)
    case Close(tag) => Closed(s, tag)
    case Data(text) =>
      if s.cell.Some? then s.(cell := Some(s.cell.value + [text]))
      else if s.depth == 0 then s.(parts := s.parts + [text])
      else s
    case SelfClosing(_) => s
  }

  /** The parser object with its callbacks. */
  class TableParser {
    var parts: seq<string>
    var tableDepth: nat
    var rows: seq<Row>
    var rowCells: Option<seq<string>>
    var rowHasHeader: bool
    var cellParts: Option<seq<string>>

    function State(): Progress
      reads this
    {
      Progress(parts, tableDepth, rows, rowCells, rowHasHeader, cellParts)
    }

    constructor ()
      ensures State() == Progress([], 0, [], None, false, None)
    {
      parts, tableDepth, rows, rowCells, rowHasHeader, cellParts := [], 0, [], None, false, None;
    }

    method HandleStartTag(tag: Tag)
      modifies this
      ensures State() == Handled(old(State()), Open(tag))
    {
      if tag == Table {
        tableDepth := tableDepth + 1;
        if tableDepth == 1 {
          rows := [];
        }
        return;
      }
      if tableDepth != 1 {
        return;
      }
      if tag == Tr {
        rowCells := Some([]);
        rowHasHeader := false;
      } else if tag == Td || tag == Th {
        cellParts := Some([]);
        if tag == Th {
          rowHasHeader := true;
        }
      }
    }

    method HandleEndTag(tag: Tag)
      modifies this
      ensures State() == Handled(old(State()), Close(tag))
    {
      if tag == Table {
        if tableDepth == 1 {
          parts := parts + [RenderTable(rows)];
          rows := [];
        }
        tableDepth := if tableDepth == 0 then 0 else tableDepth - 1;
        return;
      }
      if tableDepth != 1 {
        return;
      }
      if tag == Td || tag == Th {
        if cellParts.Some? && rowCells.Some? {
          rowCells := Some(rowCells.value + [CleanCell(Concat(cellParts.value))]);
        }
        cellParts := None;
      } else if tag == Tr {
        if rowCells.Some? {
          rows := rows + [Row(rowHasHeader, rowCells.value)];
        }
        rowCells := None;
      }
    }

    method HandleData(data: string)
      modifies this
      ensures State() == Handled(old(State()), Data(data))
    {
      if cellParts.Some? {
        cellParts := Some(cellParts.value + [data]);
      } else if tableDepth == 0 {
        parts := parts + [data];
      }
    }
  }

  function Fed(s: Progress, events: seq<Event>): Progress {
    if events == [] then s else Handled(Fed(s, events[..|events| - 1]), events[|events| - 1])
  }

  lemma {:induction false} FedAppend(s: Progress, a: seq<Event>, b: seq<Event>)
    ensures Fed(s, a + b) == Fed(Fed(s, a), b)
  {
    if b == [] {
      assert a + b == a;
    } else {
      FedAppend(s, a, b[..|b| - 1]);
      assert (a + b)[..|a + b| - 1] == a + b[..|b| - 1];
    }
  }

  // ---- Documents: text and flat tables -----------------------------------------------------------------

  datatype RawCell = RawCell(header: bool, data: seq<string>)

  datatype Block = Text(text: string) | Grid(rows: seq<seq<RawCell>>)

  function CellTag(cell: RawCell): Tag {
    if cell.header then Th else Td
  }

  function DataEvents(data: seq<string>): seq<Event> {
    if data == [] then [] else DataEvents(data[..|data| - 1]) + [Data(data[|data| - 1])]
  }

  function CellEvents(cell: RawCell): seq<Event> {
    [Open(CellTag(cell))] + DataEvents(cell.data) + [Close(CellTag(cell))]
  }

  function CellsEvents(cells: seq<RawCell>): seq<Event> {
    if cells == [] then [] else CellsEvents(cells[..|cells| - 1]) + CellEvents(cells[|cells| - 1])
  }

  function RowsEvents(rows: seq<seq<RawCell>>): seq<Event> {
    if rows == [] then []
    else RowsEvents(rows[..|rows| - 1]) + ([Open(Tr)] + CellsEvents(rows[|rows| - 1]) + [Close(Tr)])
  }

  function BlockEvents(block: Block): seq<Event> {
    match block
    case Text(text) => [Data(text)]
    case Grid(rows) => [Open(Table)] + RowsEvents(rows) + [Close(Table)]
  }

  function DocumentEvents(blocks: seq<Block>): seq<Event> {
    if blocks == [] then [] else DocumentEvents(blocks[..|blocks| - 1]) + BlockEvents(blocks[|blocks| - 1])
  }

  function CleanCells(cells: seq<RawCell>): seq<string> {
    if cells == [] then [] else CleanCells(cells[..|cells| - 1]) + [CleanCell(Concat(cells[|cells| - 1].data))]
  }

  predicate HasHeader(cells: seq<RawCell>) {
    exists i :: 0 <= i < |cells| && cells[i].header
  }

  function CleanRows(rows: seq<seq<RawCell>>): seq<Row> {
    if rows == [] then []
    else CleanRows(rows[..|rows| - 1]) + [Row(HasHeader(rows[|rows| - 1]), CleanCells(rows[|rows| - 1]))]
  }

  function BlockText(block: Block): string {
    match block
    case Text(text) => text
    case Grid(rows) => RenderTable(CleanRows(rows))
  }

  function BlockTexts(blocks: seq<Block>): seq<string> {
    if blocks == [] then [] else BlockTexts(blocks[..|blocks| - 1]) + [BlockText(blocks[|blocks| - 1])]
  }

  lemma {:induction false} FedData(s: Progress, data: seq<string>)
    requires s.cell.Some?
    ensures Fed(s, DataEvents(data)) == s.(cell := Some(s.cell.value + data))
  {
    hide Fed, Handled;
    if data == [] {
      NothingFed(s);
      assert s.cell.value + data == s.cell.value;
    } else {
      var init, last := data[..|data| - 1], data[|data| - 1];
      FedData(s, init);
      FedAppend(s, DataEvents(init), [Data(last)]);
      FedOne(Fed(s, DataEvents(init)), Data(last));
      CellData(Fed(s, DataEvents(init)), last);
      assert s.cell.value + data == (s.cell.value + init) + [last];
    }
  }

  lemma CellData(s: Progress, text: string)
    requires s.cell.Some?
    ensures Handled(s, Data(text)) == s.(cell := Some(s.cell.value + [text]))
  {
  }

  lemma {:induction false} FedOne(s: Progress, event: Event)
    ensures Fed(s, [event]) == Handled(s, event)
  {
    assert Fed(s, []) == s;
    assert [event][..0] == [];
  }

  lemma {:induction false} FedCell(s: Progress, cell: RawCell)
    requires s.depth == 1 && s.cells.Some? && s.cell.None?
    ensures Fed(s, CellEvents(cell)) == s.(cells := Some(s.cells.value + [CleanCell(Concat(cell.data))]), header := s.header || cell.header)
  {
    hide Fed, CleanCell, Concat, DataEvents, RenderTable;
    var open := Opened(s, CellTag(cell));
    FedAppend(s, [Open(CellTag(cell))], DataEvents(cell.data));
    FedOne(s, Open(CellTag(cell)));
    FedData(open, cell.data);
    FedAppend(s, [Open(CellTag(cell))] + DataEvents(cell.data), [Close(CellTag(cell))]);
    FedOne(Fed(open, DataEvents(cell.data)), Close(CellTag(cell)));
    assert [] + cell.data == cell.data;
  }

  lemma {:induction false} FedCells(s: Progress, cells: seq<RawCell>)
    requires s.depth == 1 && s.cells == Some([]) && !s.header && s.cell.None?
    ensures Fed(s, CellsEvents(cells)) == s.(cells := Some(CleanCells(cells)), header := HasHeader(cells))
  {
    hide Fed, CellEvents, CleanCell, Concat, HasHeader;
    if cells == [] {
      NothingFed(s);
    } else {
      var init, last := cells[..|cells| - 1], cells[|cells| - 1];
      FedCells(s, init);
      FedAppend(s, CellsEvents(init), CellEvents(last));
      FedCell(Fed(s, CellsEvents(init)), last);
      HeaderAdded(init, last);
      assert cells == init + [last];
    }
  }

  lemma {:induction false} NothingFed(s: Progress)
    ensures Fed(s, []) == s && !HasHeader([])
  {
  }

  lemma HeaderAdded(cells: seq<RawCell>, last: RawCell)
    ensures HasHeader(cells + [last]) <==> HasHeader(cells) || last.header
  {
    var all := cells + [last];
    if i :| 0 <= i < |cells| && cells[i].header {
      assert all[i].header;
    }
    assert all[|cells|] == last;
  }

  lemma {:induction false} FedRows(s: Progress, rows: seq<seq<RawCell>>)
    requires s.depth == 1 && s.rows == [] && s.cells.None? && s.cell.None?
    ensures var after := Fed(s, RowsEvents(rows)); after == s.(rows := CleanRows(rows), header := after.header)
  {
    if rows != [] {
      var init, last := rows[..|rows| - 1], rows[|rows| - 1];
      FedRows(s, init);
      var before := Fed(s, RowsEvents(init));
      FedAppend(s, RowsEvents(init), [Open(Tr)] + CellsEvents(last) + [Close(Tr)]);
      FedAppend(before, [Open(Tr)] + CellsEvents(last), [Close(Tr)]);
      FedAppend(before, [Open(Tr)], CellsEvents(last));
      FedOne(before, Open(Tr));
      FedCells(Opened(before, Tr), last);
      FedOne(Fed(Opened(before, Tr), CellsEvents(last)), Close(Tr));
    }
  }

  /** Between blocks the parser holds nothing but the parts so far. */
  predicate Idle(s: Progress) {
    s.depth == 0 && s.cells.None? && s.cell.None?
  }

  lemma {:induction false} FedBlock(s: Progress, block: Block)
    requires Idle(s)
    ensures Idle(Fed(s, BlockEvents(block))) && Fed(s, BlockEvents(block)).parts == s.parts + [BlockText(block)]
  {
    hide RenderTable;
    match block
    case Text(text) => FedOne(s, Data(text));
    case Grid(rows) =>
      FedAppend(s, [Open(Table)] + RowsEvents(rows), [Close(Table)]);
      FedAppend(s, [Open(Table)], RowsEvents(rows));
      FedOne(s, Open(Table));
      FedRows(Opened(s, Table), rows);
      FedOne(Fed(Opened(s, Table), RowsEvents(rows)), Close(Table));
  }

  /** Text between tables comes through as it is, and every flat table in its place as the
      pipe table of its cleaned cells. */
  lemma {:induction false} DocumentConverts(s: Progress, blocks: seq<Block>)
    requires Idle(s)
    ensures Idle(Fed(s, DocumentEvents(blocks))) && Fed(s, DocumentEvents(blocks)).parts == s.parts + BlockTexts(blocks)
  {
    hide RenderTable;
    if blocks == [] {
      assert s.parts + [] == s.parts;
    } else {
      var init, last := blocks[..|blocks| - 1], blocks[|blocks| - 1];
      DocumentConverts(s, init);
      FedAppend(s, DocumentEvents(init), BlockEvents(last));
      FedBlock(Fed(s, DocumentEvents(init)), last);
      assert s.parts + BlockTexts(blocks) == (s.parts + BlockTexts(init)) + [BlockText(last)];
    }
  }

  // ---- Tables inside cells --------------------------------------------------------------------------------

  /** The data of these events, in order. */
  function DataOf(events: seq<Event>): seq<string> {
    if events == [] then []
    else
      var last := events[|events| - 1];
      DataOf(events[..|events| - 1]) + if last.Data? then [last.text] else []
  }

  predicate OpensNoTable(events: seq<Event>) {
    forall i :: 0 <= i < |events| ==> events[i] != Open(Table) && events[i] != Close(Table)
  }

  /** A table inside a cell is flattened: whatever rows and cells it has, its data go to the cell
      around it, and nothing else of the table around it changes. */
  lemma {:induction false} InnerTable(s: Progress, inner: seq<Event>)
    requires s.depth >= 1 && s.cell.Some? && OpensNoTable(inner)
    ensures Fed(s, [Open(Table)] + inner + [Close(Table)]) == s.(cell := Some(s.cell.value + DataOf(inner)))
  {
    hide Fed, RenderTable;
    FedAppend(s, [Open(Table)] + inner, [Close(Table)]);
    FedAppend(s, [Open(Table)], inner);
    FedOne(s, Open(Table));
    InnerEvents(Opened(s, Table), inner);
    FedOne(Fed(Opened(s, Table), inner), Close(Table));
  }

  lemma {:induction false} InnerEvents(s: Progress, inner: seq<Event>)
    requires s.depth >= 2 && s.cell.Some? && OpensNoTable(inner)
    ensures Fed(s, inner) == s.(cell := Some(s.cell.value + DataOf(inner)))
  {
    hide RenderTable;
    if inner == [] {
      assert s.cell.value + [] == s.cell.value;
    } else {
      var init, last := inner[..|inner| - 1], inner[|inner| - 1];
      InnerEvents(s, init);
      if last.Data? {
        assert (s.cell.value + DataOf(init)) + [last.text] == s.cell.value + (DataOf(init) + [last.text]);
      } else {
        assert DataOf(inner) == DataOf(init) + [] == DataOf(init);
        assert last != Open(Table) && last != Close(Table);
      }
    }
  }

  // ---- Tables of a document read back --------------------------------------------------------------------

  /** What the cells of a table say: their data, with runs of white space as single spaces. */
  function CellTexts(rows: seq<seq<RawCell>>): (texts: seq<seq<string>>)
    ensures |texts| == |rows|
  {
    seq(|rows|, i requires 0 <= i < |rows| => RowTexts(rows[i]))
  }

  function RowTexts(cells: seq<RawCell>): (texts: seq<string>)
    ensures |texts| == |cells|
  {
    seq(|cells|, i requires 0 <= i < |cells| => CleanText(Concat(cells[i].data)))
  }

  lemma {:induction false} CleanCellsEscape(cells: seq<RawCell>)
    ensures CleanCells(cells) == EscapeAll(RowTexts(cells))
  {
    hide CleanText, Escape, Concat;
    if cells != [] {
      CleanCellsEscape(cells[..|cells| - 1]);
    }
  }

  lemma RowTextsOneLine(cells: seq<RawCell>)
    ensures OneLiners(RowTexts(cells))
  {
    hide CleanText, CleanCell, Concat;
    forall i | 0 <= i < |cells|
      ensures '\n' !in RowTexts(cells)[i]
    {
      CleanCellIsOneLine(Concat(cells[i].data));
    }
  }

  lemma {:induction false} CleanRowsAt(rows: seq<seq<RawCell>>)
    ensures |CleanRows(rows)| == |rows|
    ensures forall i :: 0 <= i < |rows| ==> CleanRows(rows)[i].cells == CleanCells(rows[i])
  {
    hide CleanCells, HasHeader;
    if rows != [] {
      CleanRowsAt(rows[..|rows| - 1]);
    }
  }

  lemma {:induction false} CleanRowsFit(rows: seq<seq<RawCell>>)
    ensures CellsOf(CleanRows(rows), CellTexts(rows))
  {
    hide CleanCells, CleanRows, Escape, OneLiners;
    CleanRowsAt(rows);
    forall i | 0 <= i < |rows|
      ensures CleanRows(rows)[i].cells == EscapeAll(CellTexts(rows)[i]) && OneLiners(CellTexts(rows)[i])
    {
      CleanCellsEscape(rows[i]);
      RowTextsOneLine(rows[i]);
    }
  }

  lemma {:induction false} WidthIff(rows: seq<Row>)
    ensures Width(rows) >= 1 <==> exists i :: 0 <= i < |rows| && rows[i].cells != []
  {
    if rows != [] {
      var init := rows[..|rows| - 1];
      WidthIff(init);
      if i :| 0 <= i < |init| && init[i].cells != [] {
        assert rows[i].cells != [];
      }
    }
  }

  /** A table of a document comes through as a pipe table that reads back as exactly what its
      cells say, padded to its widest row, whatever they say; the one exception is a table that
      has rows and no cell in any of them. */
  lemma {:induction false} DocumentTableReads(s: Progress, blocks: seq<Block>, k: nat)
    requires Idle(s) && k < |blocks| && blocks[k].Grid?
    ensures var (rows, parts) := (blocks[k].rows, Fed(s, DocumentEvents(blocks)).parts);
            && |parts| == |s.parts| + |blocks|
            && (ParseTable(parts[|s.parts| + k]) == PaddedAll(CellTexts(rows), Width(CleanRows(rows)))
                <==> rows == [] || exists i :: 0 <= i < |rows| && rows[i] != [])
  {
    hide RenderTable, ParseTable, PaddedAll, CleanRows, CleanCells, Fed, Width, Escape;
    DocumentConverts(s, blocks);
    BlockTextsAt(blocks);
    var rows := blocks[k].rows;
    CleanRowsAt(rows);
    CleanRowsFit(rows);
    if rows == [] {
      NoTableReads();
    } else {
      RecoveredIff(CleanRows(rows), CellTexts(rows));
      WidthIff(CleanRows(rows));
      forall i | 0 <= i < |rows|
        ensures CleanRows(rows)[i].cells != [] <==> rows[i] != []
      {
        CleanCellsEscape(rows[i]);
      }
    }
  }

  lemma {:induction false} BlockTextsAt(blocks: seq<Block>)
    ensures |BlockTexts(blocks)| == |blocks|
    ensures forall i :: 0 <= i < |blocks| ==> BlockTexts(blocks)[i] == BlockText(blocks[i])
  {
    hide BlockText;
    if blocks != [] {
      BlockTextsAt(blocks[..|blocks| - 1]);
    }
  }

  lemma {:induction false} NoTableReads()
    ensures CleanRows([]) == [] && ParseTable(RenderTable(CleanRows([]))) == PaddedAll(CellTexts([]), Width(CleanRows([])))
  {
  }
}
