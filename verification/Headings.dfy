/** Lines, ATX heading lines, and the stack of open headings that the loader and the
    outline share. */
module Headings {
  import opened Outcomes
  import opened Text

  // ---- text.split("\n") and "\n".join ----------------------------------------------------

  function Lines(text: string): (lines: seq<string>)
    ensures |lines| >= 1
  {
    if text == "" then [""]
    else if text[0] == '\n' then [""] + Lines(text[1..])
    else
      var rest := Lines(text[1..]);
      [[text[0]] + rest[0]] + rest[1..]
  }

  function Join(lines: seq<string>): string {
    if lines == [] then ""
    else if |lines| == 1 then lines[0]
    else lines[0] + "\n" + Join(lines[1..])
  }

  lemma {:induction false} JoinLines(text: string)
    ensures Join(Lines(text)) == text
  {
    if text != "" {
      JoinLines(text[1..]);
      var rest := Lines(text[1..]);
      if text[0] != '\n' {
        assert Lines(text)[1..] == rest[1..];
        assert text == [text[0]] + text[1..];
        if |rest| > 1 {
          assert [text[0]] + (rest[0] + "\n" + Join(rest[1..])) == ([text[0]] + rest[0]) + "\n" + Join(rest[1..]);
        }
      } else {
        assert Lines(text)[1..] == rest;
        assert text == "\n" + text[1..];
      }
    }
  }

  lemma {:induction false} LinesOfOne(line: string)
    requires '\n' !in line
    ensures Lines(line) == [line]
  {
    if line != "" {
      LinesOfOne(line[1..]);
      assert line == [line[0]] + line[1..];
    }
  }

  lemma {:induction false} LinesThen(line: string, rest: string)
    requires '\n' !in line
    ensures Lines(line + "\n" + rest) == [line] + Lines(rest)
  {
    var text := line + "\n" + rest;
    if line == "" {
      assert text[1..] == rest;
    } else {
      assert text[1..] == line[1..] + "\n" + rest;
      LinesThen(line[1..], rest);
      assert line == [line[0]] + line[1..];
    }
  }

  lemma {:induction false} JoinAppend(a: seq<string>, b: seq<string>)
    requires a != [] && b != []
    ensures Join(a + b) == Join(a) + "\n" + Join(b)
  {
    assert (a + b)[1..] == a[1..] + b;
    if |a| > 1 {
      JoinAppend(a[1..], b);
      assert Join(a) == a[0] + "\n" + Join(a[1..]);
    }
  }

  /** The offset at which line k starts. */
  function LineStart(lines: seq<string>, k: nat): nat
    requires k <= |lines|
  {
    if k == 0 then 0 else LineStart(lines, k - 1) + |lines[k - 1]| + 1
  }

  lemma {:induction false} LineStartIsLength(lines: seq<string>, k: nat)
    requires 0 < k <= |lines|
    ensures LineStart(lines, k) == |Join(lines[..k])| + 1
  {
    if k > 1 {
      LineStartIsLength(lines, k - 1);
      JoinAppend(lines[..k - 1], [lines[k - 1]]);
      assert lines[..k] == lines[..k - 1] + [lines[k - 1]];
    } else {
      assert lines[..1] == [lines[0]];
    }
  }

  /** Lines i to j - 1 are the text from where line i starts to before the line break that
      ends line j - 1. */
  lemma JoinSlice(lines: seq<string>, i: nat, j: nat)
    requires i < j <= |lines|
    ensures LineStart(lines, j) - 1 <= |Join(lines)|
    ensures LineStart(lines, i) + |Join(lines[i..j])| == LineStart(lines, j) - 1
    ensures Join(lines)[LineStart(lines, i)..LineStart(lines, j) - 1] == Join(lines[i..j])
  {
    LineStartIsLength(lines, j);
    PrefixOfJoin(lines, j);
    assert lines[..j][..i] + lines[i..j] == lines[..j];
    assert lines[..j][..i] == lines[..i];
    if i > 0 {
      LineStartIsLength(lines, i);
      JoinAppend(lines[..i], lines[i..j]);
    } else {
      assert lines[0..j] == lines[..j];
    }
  }

  lemma {:induction false} PrefixOfJoin(lines: seq<string>, j: nat)
    requires 0 < j <= |lines|
    ensures |Join(lines[..j])| <= |Join(lines)| && Join(lines)[..|Join(lines[..j])|] == Join(lines[..j])
  {
    assert lines[..j] + lines[j..] == lines;
    if j < |lines| {
      JoinAppend(lines[..j], lines[j..]);
    } else {
      assert lines[..j] == lines;
    }
  }

  // ---- Heading lines -----------------------------------------------------------------------

  datatype Heading = Heading(level: nat, title: string)

  function LeadingHashes(line: string): (n: nat)
    ensures n <= |line| && forall i :: 0 <= i < n ==> line[i] == '#'
    ensures n < |line| ==> line[n] != '#'
  {
    if line == "" || line[0] != '#' then 0 else 1 + LeadingHashes(line[1..])
  }

  predicate IsBlank(c: char) {
    c == ' ' || c == '\t'
  }

  /** What the heading pattern makes of a line: its groups, found directly. */
  function ParseHeading(line: string): Option<Heading> {
    var n := LeadingHashes(line);
    if 1 <= n <= 6 && n + 2 <= |line| && IsBlank(line[n]) then Some(Heading(n, Strip(line[n..]))) else None
  }

  /** The parts that the pattern ^(#{1,6})[ \t]+(.+?)\s*$ asks for. */
  predicate HeadingShape(line: string, level: nat, gap: string, body: string, tail: string) {
    && 1 <= level <= 6 && level <= |line| && (forall i :: 0 <= i < level ==> line[i] == '#')
    && line[level..] == gap + body + tail
    && gap != "" && (forall i :: 0 <= i < |gap| ==> IsBlank(gap[i]))
    && body != ""
    && AllSpace(tail)
  }

  lemma {:induction false} StripLeftSpace(space: string, s: string)
    requires AllSpace(space)
    ensures StripLeft(space + s) == StripLeft(s)
  {
    if space == "" {
      assert space + s == s;
    } else {
      assert (space + s)[1..] == space[1..] + s;
      StripLeftSpace(space[1..], s);
    }
  }

  lemma {:induction false} StripRightSpace(s: string, space: string)
    requires AllSpace(space)
    ensures StripRight(s + space) == StripRight(s)
  {
    if space == "" {
      assert s + space == s;
    } else {
      var n := |space| - 1;
      assert (s + space)[..|s| + n] == s + space[..n];
      StripRightSpace(s, space[..n]);
    }
  }

  lemma {:induction false} StripLeftKeepsEnd(s: string, t: string)
    ensures StripLeft(s + t) == if AllSpace(s) then StripLeft(t) else StripLeft(s) + t
  {
    if AllSpace(s) {
      StripLeftSpace(s, t);
    } else if IsSpace(s[0]) {
      assert (s + t)[1..] == s[1..] + t;
      assert !AllSpace(s[1..]) by {
        var i :| 0 <= i < |s| && !IsSpace(s[i]);
        assert s[1..][i - 1] == s[i];
      }
      StripLeftKeepsEnd(s[1..], t);
    }
  }

  /** White space around a text does not change what strip leaves of it. */
  lemma StripAround(before: string, s: string, after: string)
    requires AllSpace(before) && AllSpace(after)
    ensures Strip(before + s + after) == Strip(s)
  {
    assert before + s + after == before + (s + after);
    StripLeftSpace(before, s + after);
    StripLeftKeepsEnd(s, after);
    if AllSpace(s) {
      StripLeftSpace(s, "");
      assert s + "" == s;
      StripLeftSpace(after, "");
      assert after + "" == after;
    } else {
      StripRightSpace(StripLeft(s), after);
    }
  }

  lemma ShapeGivesHeading(line: string, level: nat, gap: string, body: string, tail: string)
    requires HeadingShape(line, level, gap, body, tail)
    ensures ParseHeading(line) == Some(Heading(level, Strip(body)))
  {
    assert line[level] == gap[0];
    var n := LeadingHashes(line);
    assert n == level;
    assert |line| == level + |gap| + |body| + |tail|;
    StripAround(gap, body, tail);
  }

  lemma HeadingHasShape(line: string)
    requires ParseHeading(line).Some?
    ensures var heading := ParseHeading(line).value;
            var rest := line[heading.level + 1..];
            HeadingShape(line, heading.level, [line[heading.level]], rest, "") && heading.title == Strip(rest)
  {
    var n := LeadingHashes(line);
    var gap, rest := [line[n]], line[n + 1..];
    assert line[n..] == gap + rest + "";
    StripAround(gap, rest, "");
  }

  /** A line is a heading exactly when it has the parts of the pattern, and then the level
      and the title are those of any such parts. */
  lemma HeadingIff(line: string, heading: Heading)
    ensures ParseHeading(line) == Some(heading) <==>
              exists gap, body, tail :: HeadingShape(line, heading.level, gap, body, tail) && heading.title == Strip(body)
  {
    if ParseHeading(line) == Some(heading) {
      HeadingHasShape(line);
    }
    if gap, body, tail :| HeadingShape(line, heading.level, gap, body, tail) && heading.title == Strip(body) {
      ShapeGivesHeading(line, heading.level, gap, body, tail);
    }
  }

  // ---- The stack of open headings ----------------------------------------------------------

  /** while stack and stack[-1][0] >= level: stack.pop() */
  function Pop(stack: seq<Heading>, level: nat): seq<Heading> {
    if stack != [] && stack[|stack| - 1].level >= level then Pop(stack[..|stack| - 1], level) else stack
  }

  predicate IsHeading(line: string) {
    ParseHeading(line).Some?
  }

  function LevelOf(line: string): nat
    requires IsHeading(line)
  {
    ParseHeading(line).value.level
  }

  /** The stack after the first k lines. */
  function StackAfter(lines: seq<string>, k: nat): seq<Heading>
    requires k <= |lines|
  {
    if k == 0 then []
    else if IsHeading(lines[k - 1]) then Pop(StackAfter(lines, k - 1), LevelOf(lines[k - 1])) + [ParseHeading(lines[k - 1]).value]
    else StackAfter(lines, k - 1)
  }

  /** Line i is open before line k: it is a heading, and no heading since has its level or
      a smaller one. */
  predicate IsOpen(lines: seq<string>, i: nat, k: nat) {
    && i < k <= |lines| && IsHeading(lines[i])
    && forall j :: i < j < k && IsHeading(lines[j]) ==> LevelOf(lines[j]) > LevelOf(lines[i])
  }

  predicate AllHeadings(lines: seq<string>, indices: seq<nat>) {
    forall x :: 0 <= x < |indices| ==> indices[x] < |lines| && IsHeading(lines[indices[x]])
  }

  /** Those of the lines whose level is smaller, without assuming any order among them. */
  function Shallower(lines: seq<string>, indices: seq<nat>, level: nat): (kept: seq<nat>)
    requires AllHeadings(lines, indices)
    ensures AllHeadings(lines, kept)
    ensures forall i :: i in kept <==> i in indices && LevelOf(lines[i]) < level
  {
    if indices == [] then []
    else
      var last := indices[|indices| - 1];
      Shallower(lines, indices[..|indices| - 1], level) + if LevelOf(lines[last]) < level then [last] else []
  }

  /** The open lines, in order: a heading closes every line of its level or a greater one. */
  function OpenLines(lines: seq<string>, k: nat): (open: seq<nat>)
    requires k <= |lines|
    ensures AllHeadings(lines, open)
  {
    if k == 0 then []
    else if IsHeading(lines[k - 1]) then Shallower(lines, OpenLines(lines, k - 1), LevelOf(lines[k - 1])) + [k - 1]
    else OpenLines(lines, k - 1)
  }

  /** The lines that are kept are exactly the open ones. */
  lemma {:induction false} OpenLinesIff(lines: seq<string>, k: nat, i: nat)
    requires k <= |lines|
    ensures i in OpenLines(lines, k) <==> IsOpen(lines, i, k)
  {
    if k > 0 {
      OpenLinesIff(lines, k - 1, i);
      assert IsOpen(lines, i, k) && i < k - 1 ==> IsOpen(lines, i, k - 1);
      if IsHeading(lines[k - 1]) {
        var kept := Shallower(lines, OpenLines(lines, k - 1), LevelOf(lines[k - 1]));
        assert i in OpenLines(lines, k) <==> i in kept || i == k - 1;
      }
    }
  }

  function HeadingsAt(lines: seq<string>, indices: seq<nat>): seq<Heading>
    requires AllHeadings(lines, indices)
  {
    seq(|indices|, x requires 0 <= x < |indices| => ParseHeading(lines[indices[x]]).value)
  }

  predicate Increasing(lines: seq<string>, indices: seq<nat>)
    requires AllHeadings(lines, indices)
  {
    && (forall x, y :: 0 <= x < y < |indices| ==> indices[x] < indices[y])
    && (forall x, y :: 0 <= x < y < |indices| ==> LevelOf(lines[indices[x]]) < LevelOf(lines[indices[y]]))
  }

  lemma {:induction false} ShallowerIsAll(lines: seq<string>, indices: seq<nat>, level: nat)
    requires AllHeadings(lines, indices)
    requires forall x :: 0 <= x < |indices| ==> LevelOf(lines[indices[x]]) < level
    ensures Shallower(lines, indices, level) == indices
  {
    hide ParseHeading, LevelOf, IsHeading, AllHeadings;
    if indices != [] {
      var init, last := indices[..|indices| - 1], indices[|indices| - 1];
      HeadingsBefore(lines, indices);
      ShallowerIsAll(lines, init, level);
      ShallowerThen(lines, indices, level);
      assert indices == init + [last];
    }
  }

  lemma HeadingsBefore(lines: seq<string>, indices: seq<nat>)
    requires AllHeadings(lines, indices) && indices != []
    ensures AllHeadings(lines, indices[..|indices| - 1])
    ensures var last := indices[|indices| - 1]; last < |lines| && IsHeading(lines[last])
  {
  }

  lemma {:induction false} ShallowerThen(lines: seq<string>, indices: seq<nat>, level: nat)
    requires AllHeadings(lines, indices) && indices != [] && AllHeadings(lines, indices[..|indices| - 1])
    requires LevelOf(lines[indices[|indices| - 1]]) < level
    ensures Shallower(lines, indices, level) == Shallower(lines, indices[..|indices| - 1], level) + [indices[|indices| - 1]]
  {
    hide ParseHeading, LevelOf, IsHeading, AllHeadings;
  }

  lemma AllBelow(lines: seq<string>, indices: seq<nat>, level: nat)
    requires AllHeadings(lines, indices) && Increasing(lines, indices) && indices != []
    requires LevelOf(lines[indices[|indices| - 1]]) < level
    ensures forall x :: 0 <= x < |indices| ==> LevelOf(lines[indices[x]]) < level
  {
    hide ParseHeading, IsHeading, LevelOf;
  }

  lemma PopLast(lines: seq<string>, indices: seq<nat>, level: nat)
    requires AllHeadings(lines, indices)
    ensures var stack := HeadingsAt(lines, indices);
            if indices != [] && LevelOf(lines[indices[|indices| - 1]]) >= level
            then
              var init := indices[..|indices| - 1];
              Pop(stack, level) == Pop(HeadingsAt(lines, init), level) && Shallower(lines, indices, level) == Shallower(lines, init, level)
            else Pop(stack, level) == stack
  {
    hide ParseHeading, IsHeading;
    if indices != [] {
      assert HeadingsAt(lines, indices)[..|indices| - 1] == HeadingsAt(lines, indices[..|indices| - 1]);
    }
  }

  /** Popping from the end of an increasing stack keeps what the filter keeps. */
  lemma {:induction false} PopIsShallower(lines: seq<string>, indices: seq<nat>, level: nat)
    requires AllHeadings(lines, indices) && Increasing(lines, indices)
    ensures HeadingsAt(lines, Shallower(lines, indices, level)) == Pop(HeadingsAt(lines, indices), level)
    ensures Shallower(lines, indices, level) <= indices
  {
    hide ParseHeading, IsHeading, Shallower, HeadingsAt, LevelOf;
    PopLast(lines, indices, level);
    if indices != [] && LevelOf(lines[indices[|indices| - 1]]) >= level {
      PopIsShallower(lines, indices[..|indices| - 1], level);
    } else if indices != [] {
      AllBelow(lines, indices, level);
      ShallowerIsAll(lines, indices, level);
    } else {
      ShallowerIsAll(lines, indices, level);
    }
  }

  /** The stack of the scan is the open headings: after any prefix of the lines a heading is
      on it exactly if no later heading has its level or a smaller one. */
  lemma {:induction false} StackIsOpenLines(lines: seq<string>, k: nat)
    requires k <= |lines|
    ensures StackAfter(lines, k) == HeadingsAt(lines, OpenLines(lines, k))
    ensures Increasing(lines, OpenLines(lines, k))
    ensures forall i :: i in OpenLines(lines, k) ==> i < k
  {
    hide ParseHeading;
    if k > 0 {
      StackIsOpenLines(lines, k - 1);
      if IsHeading(lines[k - 1]) {
        PushOpen(lines, OpenLines(lines, k - 1), k - 1);
      }
    }
  }

  lemma {:induction false} PushOpen(lines: seq<string>, open: seq<nat>, k: nat)
    requires k < |lines| && IsHeading(lines[k]) && AllHeadings(lines, open) && Increasing(lines, open)
    requires forall i :: i in open ==> i < k
    ensures var kept := Shallower(lines, open, LevelOf(lines[k]));
            && Increasing(lines, kept + [k])
            && HeadingsAt(lines, kept + [k]) == Pop(HeadingsAt(lines, open), LevelOf(lines[k])) + [ParseHeading(lines[k]).value]
  {
    hide ParseHeading, Shallower, Pop, LevelOf;
    var kept := Shallower(lines, open, LevelOf(lines[k]));
    PopIsShallower(lines, open, LevelOf(lines[k]));
    assert forall x :: 0 <= x < |kept| ==> kept[x] in kept;
    assert HeadingsAt(lines, kept + [k]) == HeadingsAt(lines, kept) + [ParseHeading(lines[k]).value];
  }

  // ---- Heading paths ------------------------------------------------------------------------

  /** "/".join(title for _, title in stack) */
  function PathText(stack: seq<Heading>): string {
    if stack == [] then ""
    else if |stack| == 1 then stack[0].title
    else PathText(stack[..|stack| - 1]) + "/" + stack[|stack| - 1].title
  }

  /** path or None */
  function PathOption(path: string): Option<string> {
    if path == "" then None else Some(path)
  }

  /** The text cut at every slash. */
  function Parts(text: string): (parts: seq<string>)
    ensures |parts| >= 1
  {
    if text == "" then [""]
    else if text[0] == '/' then [""] + Parts(text[1..])
    else
      var rest := Parts(text[1..]);
      [[text[0]] + rest[0]] + rest[1..]
  }

  lemma {:induction false} PartsOfOne(title: string)
    requires '/' !in title
    ensures Parts(title) == [title]
  {
    if title != "" {
      PartsOfOne(title[1..]);
      assert title == [title[0]] + title[1..];
    }
  }

  lemma {:induction false} PartsThen(text: string, title: string)
    requires '/' !in title
    ensures Parts(text + "/" + title) == Parts(text) + [title]
  {
    var whole := text + "/" + title;
    if text == "" {
      assert whole[1..] == title;
      PartsOfOne(title);
    } else {
      assert whole[0] == text[0] && whole[1..] == text[1..] + "/" + title;
      PartsThen(text[1..], title);
    }
  }

  /** The path is the titles of the open headings from the outermost in, with slashes between. */
  lemma {:induction false} PathReads(stack: seq<Heading>)
    requires stack != [] && forall i :: 0 <= i < |stack| ==> '/' !in stack[i].title
    ensures |Parts(PathText(stack))| == |stack|
    ensures forall i :: 0 <= i < |stack| ==> Parts(PathText(stack))[i] == stack[i].title
  {
    var last := stack[|stack| - 1].title;
    if |stack| == 1 {
      PartsOfOne(last);
    } else {
      PathReads(stack[..|stack| - 1]);
      PartsThen(PathText(stack[..|stack| - 1]), last);
    }
  }
}
