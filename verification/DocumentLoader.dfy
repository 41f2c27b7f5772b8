/** The loader: uploaded bytes become a normalised text and its sections. */
module DocumentLoader {
  import opened Outcomes
  import opened Text
  import opened Headings

  datatype Section = Section(path: Option<string>, content: string)

  datatype LoadedDocument = LoadedDocument(text: string, sections: seq<Section>)

  // ---- Line breaks -------------------------------------------------------------------------

  /** text.replace("\r\n", "\n") */
  function ReplaceCrLf(s: string): string {
    if s == "" then ""
    else if |s| >= 2 && s[0] == '\r' && s[1] == '\n' then "\n" + ReplaceCrLf(s[2..])
    else [s[0]] + ReplaceCrLf(s[1..])
  }

  /** text.replace("\r", "\n") */
  function ReplaceCr(s: string): string {
    seq(|s|, i requires 0 <= i < |s| => if s[i] == '\r' then '\n' else s[i])
  }

  function NormalizeNewlines(s: string): string {
    ReplaceCr(ReplaceCrLf(s))
  }

  function CharSize(c: char): nat {
    var n := c as int;
    if n < 0x80 then 1 else if n < 0x800 then 2 else if n < 0x10000 then 3 else 4
  }

  /** The length of the UTF-8 encoding. */
  function Utf8Size(s: string): nat {
    if s == "" then 0 else CharSize(s[0]) + Utf8Size(s[1..])
  }

  lemma {:induction false} CrLfWithoutCr(s: string)
    requires '\r' !in s
    ensures ReplaceCrLf(s) == s
  {
    if s != "" {
      assert '\r' !in s[1..];
      CrLfWithoutCr(s[1..]);
    }
  }

  /** Normalised text has no carriage return, and normalising it again changes nothing. */
  lemma NormalizeIsIdempotent(s: string)
    ensures '\r' !in NormalizeNewlines(s)
    ensures NormalizeNewlines(NormalizeNewlines(s)) == NormalizeNewlines(s)
  {
    var t := NormalizeNewlines(s);
    assert '\r' !in t;
    CrLfWithoutCr(t);
    assert ReplaceCr(t) == t;
  }

  // ---- What normalising does to a text -------------------------------------------------------

  lemma {:induction false} CrLfAfter(a: string, b: string)
    requires '\r' !in a
    ensures ReplaceCrLf(a + b) == a + ReplaceCrLf(b)
  {
    if a == "" {
      assert a + b == b;
    } else {
      assert (a + b)[0] == a[0] && (a + b)[1..] == a[1..] + b;
      assert a[0] != '\r' && '\r' !in a[1..];
      CrLfAfter(a[1..], b);
      assert a == [a[0]] + a[1..];
    }
  }

  lemma CrOfConcat(a: string, b: string)
    ensures ReplaceCr(a + b) == ReplaceCr(a) + ReplaceCr(b)
  {
  }

  /** These three equations determine the normalised text: without a carriage return it is the text
      itself, and every line break, "\r\n" or a single '\r', becomes one '\n'. */
  lemma NormalizesPlain(a: string)
    requires '\r' !in a
    ensures NormalizeNewlines(a) == a
  {
    CrLfWithoutCr(a);
  }

  lemma {:induction false} NormalizesCrLf(a: string, b: string)
    requires '\r' !in a
    ensures NormalizeNewlines(a + "\r\n" + b) == a + "\n" + NormalizeNewlines(b)
  {
    assert a + "\r\n" + b == a + ("\r\n" + b) && ("\r\n" + b)[2..] == b;
    CrLfAfter(a, "\r\n" + b);
    CrOfConcat(a, "\n" + ReplaceCrLf(b));
    CrOfConcat("\n", ReplaceCrLf(b));
    assert ReplaceCr(a) == a && ReplaceCr("\n") == "\n";
  }

  lemma {:induction false} NormalizesCr(a: string, b: string)
    requires '\r' !in a && (b == "" || b[0] != '\n')
    ensures NormalizeNewlines(a + "\r" + b) == a + "\n" + NormalizeNewlines(b)
  {
    assert a + "\r" + b == a + ("\r" + b) && ("\r" + b)[1..] == b;
    CrLfAfter(a, "\r" + b);
    CrOfConcat(a, "\r" + ReplaceCrLf(b));
    CrOfConcat("\r", ReplaceCrLf(b));
    assert ReplaceCr(a) == a && ReplaceCr("\r") == "\n";
  }

  const TERMINATORS := {"\n", "\r\n", "\r"}

  /** Lines, each but the last followed by its terminator. */
  function Terminated(lines: seq<string>, ends: seq<string>): string
    requires |lines| == |ends| + 1
  {
    if ends == [] then lines[0] else lines[0] + ends[0] + Terminated(lines[1..], ends[1..])
  }

  /** The lines hold no line break, and a single '\r' is not the first half of a "\r\n". */
  predicate AreLines(lines: seq<string>, ends: seq<string>) {
    && |lines| == |ends| + 1
    && (forall i :: 0 <= i < |lines| ==> '\r' !in lines[i] && '\n' !in lines[i])
    && (forall i :: 0 <= i < |ends| ==> ends[i] in TERMINATORS)
    && (forall i :: 0 <= i < |ends| - 1 ==> !(ends[i] == "\r" && lines[i + 1] == "" && ends[i + 1] == "\n"))
  }

  /** Every text is lines under some mix of the three terminators. */
  lemma {:induction false} SplitAtTerminators(s: string) returns (lines: seq<string>, ends: seq<string>)
    ensures AreLines(lines, ends) && Terminated(lines, ends) == s
  {
    if s == "" {
      lines, ends := [""], [];
    } else if s[0] == '\r' || s[0] == '\n' {
      var end := if |s| >= 2 && s[0] == '\r' && s[1] == '\n' then "\r\n" else [s[0]];
      var rest, others := SplitAtTerminators(s[|end|..]);
      assert s == end + s[|end|..];
      BreakBefore(end, rest, others);
      lines, ends := [""] + rest, [end] + others;
    } else {
      var rest, others := SplitAtTerminators(s[1..]);
      assert s == [s[0]] + s[1..];
      CharacterBefore(s[0], rest, others);
      lines, ends := [[s[0]] + rest[0]] + rest[1..], others;
    }
  }

  lemma {:induction false} BreakBefore(end: string, rest: seq<string>, others: seq<string>)
    requires AreLines(rest, others) && end in TERMINATORS
    requires end == "\r" ==> Terminated(rest, others) == "" || Terminated(rest, others)[0] != '\n'
    ensures AreLines([""] + rest, [end] + others) && Terminated([""] + rest, [end] + others) == end + Terminated(rest, others)
  {
    var (lines, ends) := ([""] + rest, [end] + others);
    assert lines[1..] == rest && ends[1..] == others && "" + end == end;
    if end == "\r" && others != [] && rest[0] == "" {
      assert Terminated(rest, others)[0] == others[0][0];
    }
    assert forall i :: 0 < i < |lines| ==> lines[i] == rest[i - 1];
    assert forall i :: 0 < i < |ends| ==> ends[i] == others[i - 1];
  }

  lemma {:induction false} CharacterBefore(c: char, rest: seq<string>, others: seq<string>)
    requires AreLines(rest, others) && c != '\r' && c != '\n'
    ensures var lines := [[c] + rest[0]] + rest[1..]; AreLines(lines, others) && Terminated(lines, others) == [c] + Terminated(rest, others)
  {
    var lines := [[c] + rest[0]] + rest[1..];
    assert lines[1..] == rest[1..];
    if others != [] {
      assert [c] + (rest[0] + others[0] + Terminated(rest[1..], others[1..])) == lines[0] + others[0] + Terminated(lines[1..], others[1..]);
    }
    assert forall i :: 0 < i < |lines| ==> lines[i] == rest[i];
  }

  /** The lines of the normalised text are the lines of the text, whatever ends them. */
  lemma {:induction false} NormalizesLines(lines: seq<string>, ends: seq<string>)
    requires AreLines(lines, ends)
    ensures Lines(NormalizeNewlines(Terminated(lines, ends))) == lines
  {
    hide NormalizeNewlines;
    if ends == [] {
      NormalizesPlain(lines[0]);
      LinesOfOne(lines[0]);
    } else {
      var rest := Terminated(lines[1..], ends[1..]);
      NormalizesLines(lines[1..], ends[1..]);
      if ends[0] == "\r\n" {
        NormalizesCrLf(lines[0], rest);
      } else if ends[0] == "\r" {
        RestStarts(lines, ends);
        NormalizesCr(lines[0], rest);
      } else {
        NormalizesAfter(lines[0] + "\n", rest);
      }
      LinesThen(lines[0], NormalizeNewlines(rest));
    }
  }

  lemma NormalizesAfter(a: string, b: string)
    requires '\r' !in a
    ensures NormalizeNewlines(a + b) == a + NormalizeNewlines(b)
  {
    CrLfAfter(a, b);
    CrOfConcat(a, ReplaceCrLf(b));
  }

  /** What follows a single '\r' does not start with '\n'. */
  lemma {:induction false} RestStarts(lines: seq<string>, ends: seq<string>)
    requires AreLines(lines, ends) && ends != [] && ends[0] == "\r"
    ensures var rest := Terminated(lines[1..], ends[1..]); rest == "" || rest[0] != '\n'
  {
    var (next, others) := (lines[1..], ends[1..]);
    assert next[0] == lines[1] && '\n' !in lines[1];
    if others != [] {
      assert others[0] == ends[1];
      if next[0] != "" {
        assert Terminated(next, others)[0] == next[0][0];
      } else {
        assert Terminated(next, others)[0] == others[0][0];
      }
    } else if next[0] != "" {
      assert Terminated(next, others)[0] == next[0][0];
    }
  }

  // ---- Sizes -----------------------------------------------------------------------------------

  /** The first character that needs 1, 2, 3 and 4 bytes, and the end of them all. */
  const FIRST_OF_SIZE := [0, 0x80, 0x800, 0x10000, 0x110000]

  /** The size is the number of bytes of UTF-8: each character adds the fewest that can hold it. */
  lemma {:induction false} SizeGrows(s: string, c: char)
    ensures Utf8Size("") == 0
    ensures var n := Utf8Size(s + [c]) - Utf8Size(s); 1 <= n <= 4 && FIRST_OF_SIZE[n - 1] <= c as int < FIRST_OF_SIZE[n]
  {
    if s == "" {
      assert s + [c] == [c] && Utf8Size([c]) == CharSize(c) + Utf8Size([c][1..]);
    } else {
      assert (s + [c])[0] == s[0] && (s + [c])[1..] == s[1..] + [c];
      SizeGrows(s[1..], c);
    }
  }

  lemma {:induction false} CrKeepsSize(s: string)
    ensures Utf8Size(ReplaceCr(s)) == Utf8Size(s)
  {
    if s != "" {
      CrKeepsSize(s[1..]);
      assert ReplaceCr(s)[1..] == ReplaceCr(s[1..]);
    }
  }

  lemma {:induction false} CrLfShrinks(s: string)
    ensures Utf8Size(ReplaceCrLf(s)) <= Utf8Size(s)
  {
    if s == "" {
    } else if |s| >= 2 && s[0] == '\r' && s[1] == '\n' {
      CrLfShrinks(s[2..]);
      assert ("\n" + ReplaceCrLf(s[2..]))[1..] == ReplaceCrLf(s[2..]);
      assert s[1..][1..] == s[2..];
    } else {
      CrLfShrinks(s[1..]);
      assert ([s[0]] + ReplaceCrLf(s[1..]))[1..] == ReplaceCrLf(s[1..]);
    }
  }

  /** Normalising never makes the encoded text larger. */
  lemma {:induction false} NormalizeShrinks(s: string)
    ensures Utf8Size(NormalizeNewlines(s)) <= Utf8Size(s)
  {
    CrLfShrinks(s);
    CrKeepsSize(ReplaceCrLf(s));
  }

  // ---- Sections as runs of lines -----------------------------------------------------------

  /** A section covers the lines from .. to - 1. */
  datatype Span = Span(path: Option<string>, from: nat, to: nat)

  /** str.isspace: false for the empty text. */
  predicate IsSpaceText(s: string) {
    s != "" && AllSpace(s)
  }

  /** What flush does with the lines collected since start. */
  function Flushed(lines: seq<string>, start: nat, k: nat, spans: seq<Span>): seq<Span>
    requires start <= k <= |lines|
  {
    if start == k || IsSpaceText(Join(lines[start..k])) then spans
    else spans + [Span(PathOption(PathText(StackAfter(lines, k))), start, k)]
  }

  /** After k lines: where the collected lines start, and the sections so far. */
  datatype Progress = Progress(start: nat, spans: seq<Span>)

  function Scanned(lines: seq<string>, k: nat): (progress: Progress)
    requires k <= |lines|
    ensures progress.start <= k
  {
    if k == 0 then Progress(0, [])
    else
      var before := Scanned(lines, k - 1);
      if IsHeading(lines[k - 1]) then Progress(k, Flushed(lines, before.start, k - 1, before.spans)) else before
  }

  function SpansOf(lines: seq<string>): seq<Span> {
    var last := Scanned(lines, |lines|);
    Flushed(lines, last.start, |lines|, last.spans)
  }

  predicate InLines(lines: seq<string>, spans: seq<Span>) {
    forall i :: 0 <= i < |spans| ==> spans[i].from < spans[i].to <= |lines|
  }

  function SectionsAt(lines: seq<string>, spans: seq<Span>): (sections: seq<Section>)
    requires InLines(lines, spans)
    ensures |sections| == |spans|
    ensures forall i :: 0 <= i < |spans| ==> sections[i] == Section(spans[i].path, Join(lines[spans[i].from..spans[i].to]))
  {
    if spans == [] then []
    else
      var last := spans[|spans| - 1];
      SectionsAt(lines, spans[..|spans| - 1]) + [Section(last.path, Join(lines[last.from..last.to]))]
  }

  lemma {:induction false} ScannedInLines(lines: seq<string>, k: nat)
    requires k <= |lines|
    ensures InLines(lines, Scanned(lines, k).spans)
  {
    if k > 0 {
      ScannedInLines(lines, k - 1);
    }
  }

  function SectionsOf(lines: seq<string>): seq<Section> {
    ScannedInLines(lines, |lines|);
    SectionsAt(lines, SpansOf(lines))
  }

  // ---- _extract_markdown_sections ------------------------------------------------------------

  /** flush: a section of the collected lines under the current path, unless they are blank. */
  method Flush(sections: seq<Section>, stack: seq<Heading>, buffer: seq<string>) returns (flushed: seq<Section>)
    ensures flushed == if buffer == [] || IsSpaceText(Join(buffer)) then sections
                       else sections + [Section(PathOption(PathText(stack)), Join(buffer))]
  {
    if buffer == [] {
      return sections;
    }
    var content := Join(buffer);
    if IsSpaceText(content) {
      return sections;
    }
    return sections + [Section(PathOption(PathText(stack)), content)];
  }

  method PushHeading(stack: seq<Heading>, heading: Heading) returns (pushed: seq<Heading>)
    ensures pushed == Pop(stack, heading.level) + [heading]
  {
    pushed := stack;
    while pushed != [] && pushed[|pushed| - 1].level >= heading.level
      invariant Pop(pushed, heading.level) == Pop(stack, heading.level)
      decreases |pushed|
    {
      pushed := pushed[..|pushed| - 1];
    }
    pushed := pushed + [heading];
  }

  /** The sections of the spans that a flush leaves. */
  lemma {:induction false} FlushedSections(lines: seq<string>, start: nat, k: nat, spans: seq<Span>)
    requires start <= k <= |lines| && InLines(lines, spans)
    ensures InLines(lines, Flushed(lines, start, k, spans))
    ensures SectionsAt(lines, Flushed(lines, start, k, spans))
         == if start == k || IsSpaceText(Join(lines[start..k])) then SectionsAt(lines, spans)
            else SectionsAt(lines, spans) + [Section(PathOption(PathText(StackAfter(lines, k))), Join(lines[start..k]))]
  {
    hide IsSpaceText, StackAfter, PathOption, PathText, Join;
    var flushed := Flushed(lines, start, k, spans);
    if flushed != spans {
      assert flushed[..|flushed| - 1] == spans;
    }
  }

  method ExtractMarkdownSections(text: string) returns (sections: seq<Section>)
    ensures sections == SectionsOf(Lines(text))
  {
    hide ParseHeading, Flushed, SectionsAt, Pop, PathText, PathOption, Join, IsSpaceText;
    var lines := Lines(text);
    var stack: seq<Heading>, buffer: seq<string> := [], [];
    sections := [];
    ScannedInLines(lines, 0);
    NoSections(lines);
    var k := 0;
    while k < |lines|
      invariant 0 <= k <= |lines|
      invariant stack == StackAfter(lines, k)
      invariant buffer == lines[Scanned(lines, k).start..k]
      invariant InLines(lines, Scanned(lines, k).spans)
      invariant sections == SectionsAt(lines, Scanned(lines, k).spans)
    {
      FlushedSections(lines, Scanned(lines, k).start, k, Scanned(lines, k).spans);
      var heading := ParseHeading(lines[k]);
      if heading.Some? {
        sections := Flush(sections, stack, buffer);
        buffer := [];
        stack := PushHeading(stack, heading.value);
      } else {
        buffer := buffer + [lines[k]];
      }
      k := k + 1;
    }
    FlushedSections(lines, Scanned(lines, k).start, k, Scanned(lines, k).spans);
    sections := Flush(sections, stack, buffer);
    SectionsOfLines(lines);
  }

  lemma {:induction false} NoSections(lines: seq<string>)
    ensures SectionsAt(lines, []) == []
  {
  }

  // ---- What the sections are --------------------------------------------------------------------

  /** A section is a whole run of lines between two headings, under the path that is open there. */
  ghost predicate SpanFits(lines: seq<string>, span: Span) {
    && span.from < span.to <= |lines|
    && (forall j :: span.from <= j < span.to ==> !IsHeading(lines[j]))
    && (span.from == 0 || IsHeading(lines[span.from - 1]))
    && (span.to == |lines| || IsHeading(lines[span.to]))
    && span.path == PathOption(PathText(StackAfter(lines, span.from)))
    && !IsSpaceText(Join(lines[span.from..span.to]))
  }

  ghost predicate SpansOrdered(spans: seq<Span>) {
    forall i, j :: 0 <= i < j < |spans| ==> spans[i].to < spans[j].from
  }

  /** Every line with text that is no heading belongs to a section. */
  ghost predicate Covers(lines: seq<string>, spans: seq<Span>, upTo: nat) {
    forall j :: 0 <= j < upTo && j < |lines| && !IsHeading(lines[j]) && !AllSpace(lines[j]) ==> InSomeSpan(spans, j)
  }

  ghost predicate InSomeSpan(spans: seq<Span>, j: nat) {
    exists i :: 0 <= i < |spans| && spans[i].from <= j < spans[i].to
  }

  lemma {:induction false} StackUnchanged(lines: seq<string>, from: nat, to: nat)
    requires from <= to <= |lines| && forall j :: from <= j < to ==> !IsHeading(lines[j])
    ensures StackAfter(lines, to) == StackAfter(lines, from)
  {
    if from < to {
      StackUnchanged(lines, from, to - 1);
    }
  }

  lemma {:induction false} LineInJoin(lines: seq<string>, j: nat)
    requires j < |lines| && AllSpace(Join(lines))
    ensures AllSpace(lines[j])
  {
    JoinSlice(lines, j, j + 1);
    assert lines[j..j + 1] == [lines[j]];
    var start := LineStart(lines, j);
    assert Join(lines)[start..start + |lines[j]|] == lines[j];
    forall i | 0 <= i < |lines[j]|
      ensures IsSpace(lines[j][i])
    {
      assert Join(lines)[start + i] == lines[j][i];
    }
  }

  ghost predicate ScanFits(lines: seq<string>, k: nat, progress: Progress)
    requires k <= |lines|
  {
    && progress.start <= k
    && (forall j :: progress.start <= j < k ==> !IsHeading(lines[j]))
    && (progress.start == 0 || IsHeading(lines[progress.start - 1]))
    && (forall i :: 0 <= i < |progress.spans| ==> SpanFits(lines, progress.spans[i]) && progress.spans[i].to < progress.start)
    && SpansOrdered(progress.spans)
    && Covers(lines, progress.spans, progress.start)
  }

  lemma FlushFits(lines: seq<string>, k: nat, progress: Progress)
    requires k <= |lines| && ScanFits(lines, k, progress) && (k == |lines| || IsHeading(lines[k]))
    ensures var spans := Flushed(lines, progress.start, k, progress.spans);
            && (forall i :: 0 <= i < |spans| ==> SpanFits(lines, spans[i]) && spans[i].to <= k)
            && SpansOrdered(spans)
            && Covers(lines, spans, k)
  {
    hide ParseHeading, IsHeading, IsSpaceText, PathText, PathOption, StackAfter, Join;
    StackUnchanged(lines, progress.start, k);
    FlushCovers(lines, k, progress);
  }

  lemma FlushCovers(lines: seq<string>, k: nat, progress: Progress)
    requires k <= |lines| && progress.start <= k && Covers(lines, progress.spans, progress.start)
    ensures Covers(lines, Flushed(lines, progress.start, k, progress.spans), k)
  {
    hide IsHeading, ParseHeading, PathText, PathOption, StackAfter, Join;
    var spans := Flushed(lines, progress.start, k, progress.spans);
    forall j | 0 <= j < k && !IsHeading(lines[j]) && !AllSpace(lines[j])
      ensures InSomeSpan(spans, j)
    {
      if j < progress.start {
        var i :| 0 <= i < |progress.spans| && progress.spans[i].from <= j < progress.spans[i].to;
        assert spans[i] == progress.spans[i];
      } else {
        LineKeepsText(lines, progress.start, k, j);
        assert spans[|spans| - 1].from <= j < spans[|spans| - 1].to;
      }
    }
  }

  lemma LineKeepsText(lines: seq<string>, start: nat, k: nat, j: nat)
    requires start <= j < k <= |lines| && !AllSpace(lines[j])
    ensures !IsSpaceText(Join(lines[start..k]))
  {
    if IsSpaceText(Join(lines[start..k])) {
      assert lines[start..k][j - start] == lines[j];
      LineInJoin(lines[start..k], j - start);
    }
  }

  lemma {:induction false} ScanFitsAlways(lines: seq<string>, k: nat)
    requires k <= |lines|
    ensures ScanFits(lines, k, Scanned(lines, k))
  {
    hide IsHeading, ParseHeading, SpanFits, Flushed;
    if k > 0 {
      ScanFitsAlways(lines, k - 1);
      if IsHeading(lines[k - 1]) {
        FlushFits(lines, k - 1, Scanned(lines, k - 1));
      }
    }
  }

  /** The sections are the runs of text between headings: each under the path of the last
      heading before it, in order, and together with every line that has any text. */
  lemma SectionsAreRuns(lines: seq<string>)
    ensures forall i :: 0 <= i < |SpansOf(lines)| ==> SpanFits(lines, SpansOf(lines)[i])
    ensures SpansOrdered(SpansOf(lines))
    ensures Covers(lines, SpansOf(lines), |lines|)
  {
    hide SpanFits;
    ScanFitsAlways(lines, |lines|);
    FlushFits(lines, |lines|, Scanned(lines, |lines|));
  }

  /** Where a section starts in the text. */
  function TrueStart(lines: seq<string>, span: Span): nat
    requires span.from <= |lines|
  {
    LineStart(lines, span.from)
  }

  /** Section i of the text stands at its true start, and after the end of section i - 1. */
  lemma SectionsInText(text: string, i: nat)
    requires i < |SpansOf(Lines(text))|
    ensures var lines, spans := Lines(text), SpansOf(Lines(text));
            && InLines(lines, spans)
            && var content := SectionsOf(lines)[i].content;
            && TrueStart(lines, spans[i]) + |content| <= |text|
            && text[TrueStart(lines, spans[i])..TrueStart(lines, spans[i]) + |content|] == content
            && (i > 0 ==> TrueStart(lines, spans[i - 1]) + |SectionsOf(lines)[i - 1].content| < TrueStart(lines, spans[i]))
  {
    hide Lines, SpansOf, SectionsOf, SectionsAt, SpanFits, Join;
    var lines := Lines(text);
    JoinLines(text);
    SectionsOfLines(lines);
    SectionInLines(lines, i);
    if i > 0 {
      SectionsDisjoint(lines, i);
    }
  }

  lemma {:induction false} SectionInLines(lines: seq<string>, i: nat)
    requires i < |SpansOf(lines)| && InLines(lines, SpansOf(lines))
    ensures var span := SpansOf(lines)[i];
            && TrueStart(lines, span) + |Join(lines[span.from..span.to])| <= |Join(lines)|
            && Join(lines)[TrueStart(lines, span)..TrueStart(lines, span) + |Join(lines[span.from..span.to])|] == Join(lines[span.from..span.to])
  {
    hide SpansOf, Join;
    JoinSlice(lines, SpansOf(lines)[i].from, SpansOf(lines)[i].to);
  }

  lemma SectionsDisjoint(lines: seq<string>, i: nat)
    requires 0 < i < |SpansOf(lines)| && InLines(lines, SpansOf(lines))
    ensures var before, span := SpansOf(lines)[i - 1], SpansOf(lines)[i];
            TrueStart(lines, before) + |Join(lines[before.from..before.to])| < TrueStart(lines, span)
  {
    hide SpansOf, Join, SpanFits;
    SectionsAreRuns(lines);
    JoinSlice(lines, SpansOf(lines)[i - 1].from, SpansOf(lines)[i - 1].to);
    LineStartGrows(lines, SpansOf(lines)[i - 1].to, SpansOf(lines)[i].from);
  }

  lemma {:induction false} SectionsOfLines(lines: seq<string>)
    ensures InLines(lines, SpansOf(lines))
    ensures SectionsOf(lines) == SectionsAt(lines, SpansOf(lines))
  {
    ScannedInLines(lines, |lines|);
  }

  lemma {:induction false} LineStartGrows(lines: seq<string>, i: nat, j: nat)
    requires i <= j <= |lines|
    ensures LineStart(lines, i) <= LineStart(lines, j)
    ensures i < j ==> LineStart(lines, i) < LineStart(lines, j)
  {
    if i < j {
      LineStartGrows(lines, i, j - 1);
    }
  }

  // ---- load ----------------------------------------------------------------------------------

  datatype SourceType = Markdown | PlainText | Word | Pdf

  /** Uploaded bytes: the encoding of a text, or bytes that no text encodes to. */
  datatype Bytes = Utf8(text: string) | NotUtf8(id: nat, size: nat) {
    function Size(): nat {
      if Utf8? then Utf8Size(text) else size
    }
  }

  datatype LoadError = InvalidDocument | ParsingUnavailable

  const MAX_DOCUMENT_BYTES := 2 * 1024 * 1024

  /** The external parsing service and the clean-up of its Markdown. */
  datatype Parser = Parser(extract: Bytes -> Outcome<string, LoadError>, clean: string -> string)

  predicate IsExtracted(source: SourceType) {
    source.Word? || source.Pdf?
  }

  function FromText(text: string, markdown: bool): Outcome<LoadedDocument, LoadError> {
    if AllSpace(text) then Err(InvalidDocument)
    else Ok(LoadedDocument(text, if markdown then SectionsOf(Lines(text)) else [Section(None, text)]))
  }

  function Load(content: Bytes, source: SourceType, parser: Option<Parser>): Outcome<LoadedDocument, LoadError> {
    if content.Size() > MAX_DOCUMENT_BYTES then Err(InvalidDocument)
    else if IsExtracted(source) then (
      match parser
      case None => Err(ParsingUnavailable)
      case Some(service) =>
        var raw :- service.extract(content);
        FromText(NormalizeNewlines(service.clean(raw)), true))
    else if content.NotUtf8? then Err(InvalidDocument)
    else FromText(NormalizeNewlines(content.text), source.Markdown?)
  }

  /** _reload_from_stored_text: the stored text goes through the local branch again. */
  function Reload(text: string, source: SourceType): Outcome<LoadedDocument, LoadError> {
    Load(Utf8(text), if IsExtracted(source) then Markdown else source, None)
  }

  /** What the loader does with any upload, by the lines of its text under any mix of line breaks: an
      upload over 2 MiB, bytes that are no text, and a text of blank lines are refused; a document has
      exactly the lines of the upload, with the sections of Markdown, or the whole as the one section
      of plain text. */
  lemma {:induction false} LoadMeans(content: Bytes, source: SourceType, parser: Option<Parser>, lines: seq<string>, ends: seq<string>)
    requires source.Markdown? || source.PlainText?
    requires content.Utf8? ==> AreLines(lines, ends) && Terminated(lines, ends) == content.text
    ensures var loaded := Load(content, source, parser);
            if content.NotUtf8? then loaded == Err(InvalidDocument)
            else if Utf8Size(content.text) > 2097152 || HasOnlyBlanks(lines) then loaded == Err(InvalidDocument)
            else
              && loaded.Ok? && Lines(loaded.value.text) == lines
              && loaded.value.sections == if source.Markdown? then SectionsOf(lines) else [Section(None, loaded.value.text)]
  {
    hide Utf8Size, SectionsOf, NormalizeNewlines;
    if content.Utf8? {
      NormalizesLines(lines, ends);
      BlankIff(NormalizeNewlines(content.text));
    }
  }

  /** The same of a Word or PDF upload, by the lines that the parsing service makes of it; the size
      limit is that of the upload, and the sections are those of Markdown. */
  lemma {:induction false} ExtractedMeans(content: Bytes, source: SourceType, parser: Option<Parser>, lines: seq<string>, ends: seq<string>)
    requires source.Word? || source.Pdf?
    requires parser.Some? && parser.value.extract(content).Ok? ==>
               AreLines(lines, ends) && Terminated(lines, ends) == parser.value.clean(parser.value.extract(content).value)
    ensures var loaded := Load(content, source, parser);
            if content.Size() > 2097152 then loaded == Err(InvalidDocument)
            else if parser.None? then loaded == Err(ParsingUnavailable)
            else if parser.value.extract(content).Err? then loaded == Err(parser.value.extract(content).error)
            else if HasOnlyBlanks(lines) then loaded == Err(InvalidDocument)
            else loaded.Ok? && Lines(loaded.value.text) == lines && loaded.value.sections == SectionsOf(lines)
  {
    hide Utf8Size, SectionsOf, NormalizeNewlines;
    if parser.Some? && parser.value.extract(content).Ok? {
      NormalizesLines(lines, ends);
      BlankIff(NormalizeNewlines(parser.value.clean(parser.value.extract(content).value)));
    }
  }

  predicate HasOnlyBlanks(lines: seq<string>) {
    forall i :: 0 <= i < |lines| ==> AllSpace(lines[i])
  }

  /** A text is blank exactly if all its lines are. */
  lemma {:induction false} BlankIff(text: string)
    ensures AllSpace(text) <==> HasOnlyBlanks(Lines(text))
  {
    if text != "" {
      BlankIff(text[1..]);
      assert [text[0]] + text[1..] == text;
      SpaceSplit(text[0], text[1..]);
      var rest := Lines(text[1..]);
      if text[0] == '\n' {
        assert Lines(text)[1..] == rest;
        BlanksSplit("", rest);
      } else {
        SpaceSplit(text[0], rest[0]);
        BlanksSplit([text[0]] + rest[0], rest[1..]);
        BlanksSplit(rest[0], rest[1..]);
        assert [rest[0]] + rest[1..] == rest;
      }
    }
  }

  lemma BlanksSplit(line: string, rest: seq<string>)
    ensures HasOnlyBlanks([line] + rest) <==> AllSpace(line) && HasOnlyBlanks(rest)
  {
    assert forall i :: 0 <= i < |rest| ==> ([line] + rest)[1 + i] == rest[i];
    assert ([line] + rest)[0] == line;
  }

  lemma SpaceSplit(c: char, s: string)
    ensures AllSpace([c] + s) <==> IsSpace(c) && AllSpace(s)
  {
    assert forall i :: 0 <= i < |s| ==> ([c] + s)[1 + i] == s[i];
    assert ([c] + s)[0] == c;
  }

  /** A retry from the stored text rebuilds the very same document, and so the very same
      chunks, exactly if the text fits the upload limit; text that was uploaded as such
      always does, text that was extracted from a Word or PDF file may not. */
  lemma ReloadRebuilds(content: Bytes, source: SourceType, parser: Option<Parser>)
    requires Load(content, source, parser).Ok?
    ensures var loaded := Load(content, source, parser);
            Reload(loaded.value.text, source) == if Utf8Size(loaded.value.text) <= MAX_DOCUMENT_BYTES then loaded else Err(InvalidDocument)
    ensures !IsExtracted(source) ==> Utf8Size(Load(content, source, parser).value.text) <= MAX_DOCUMENT_BYTES
  {
    hide SectionsOf, Utf8Size;
    if IsExtracted(source) {
      NormalizeIsIdempotent(parser.value.clean(parser.value.extract(content).value));
    } else {
      NormalizeIsIdempotent(content.text);
      NormalizeShrinks(content.text);
    }
  }

  /** What the loader makes of any upload: text, without carriage returns. */
  predicate IsLoadedText(text: string) {
    !AllSpace(text) && '\r' !in text
  }

  lemma LoadedHasText(content: Bytes, source: SourceType, parser: Option<Parser>)
    requires Load(content, source, parser).Ok?
    ensures IsLoadedText(Load(content, source, parser).value.text)
  {
    hide SectionsOf;
    if IsExtracted(source) {
      NormalizeIsIdempotent(parser.value.clean(parser.value.extract(content).value));
    } else {
      NormalizeIsIdempotent(content.text);
    }
  }

  /** A document as the loader makes it: text, and the sections of Markdown or of plain text. */
  ghost predicate LoadedBy(document: LoadedDocument) {
    && !AllSpace(document.text)
    && (|| document.sections == SectionsOf(Lines(document.text))
        || document.sections == [Section(None, document.text)])
  }

  lemma LoadedHasSections(content: Bytes, source: SourceType, parser: Option<Parser>)
    requires Load(content, source, parser).Ok?
    ensures LoadedBy(Load(content, source, parser).value)
  {
    hide SectionsOf;
  }
}
