/** The chunker: sections are located in the text, split into pieces, and emitted as chunks
    that overlap their predecessors and leave no gap. */
module Chunking {
  import opened Outcomes
  import opened DocumentLoader

  // ---- str.find and slices ------------------------------------------------------------------

  predicate OccursAt(text: string, pattern: string, i: nat) {
    i + |pattern| <= |text| && text[i..i + |pattern|] == pattern
  }

  /** text.find(pattern, from): the first occurrence at or after from. */
  function Find(text: string, pattern: string, from: nat): (found: Option<nat>)
    requires from <= |text|
    ensures found.Some? ==> from <= found.value && OccursAt(text, pattern, found.value)
    ensures forall j :: from <= j && OccursAt(text, pattern, j) ==> found.Some? && found.value <= j
    decreases |text| - from
  {
    if OccursAt(text, pattern, from) then Some(from)
    else if from == |text| then None
    else Find(text, pattern, from + 1)
  }

  /** text[lo:hi], which never raises. */
  function Slice(text: string, lo: nat, hi: nat): string {
    var end := if hi < |text| then hi else |text|;
    if lo < end then text[lo..end] else ""
  }

  // ---- The splitter and the tokenizer -----------------------------------------------------------

  /** split: the pieces of a section; tail: how many characters the last overlap tokens of a
      text decode to, or nothing if it has no tokens; count: the number of tokens. */
  datatype Tools = Tools(split: string -> seq<string>, tail: string -> Option<nat>, count: string -> nat)

  /** Decoding the last tokens of a text never gives more characters than the text has. */
  ghost predicate TailFits(tools: Tools) {
    forall s: string :: tools.tail(s).Some? ==> tools.tail(s).value <= |s|
  }

  datatype ChunkError = NoSections | SectionLost | NoChunks

  /** The rows of one version; the identifier is the name-based UUID (RFC 4122 section 4.3)
      of organization, version and ordinal, so the ordinal stands for it. */
  datatype Chunk = Chunk(ordinal: nat, path: Option<string>, content: string, tokens: nat, start: nat, end: nat)

  datatype Bound = Bound(path: Option<string>, start: nat, end: nat)

  // ---- Locating the sections ---------------------------------------------------------------------

  /** The span of every section from section i on, searching forward from an offset. */
  function Located(text: string, sections: seq<Section>, i: nat, from: nat): Outcome<seq<Bound>, ChunkError>
    requires i <= |sections| && from <= |text|
    decreases |sections| - i
  {
    if i == |sections| then Ok([])
    else
      match Find(text, sections[i].content, from)
      case None => Err(SectionLost)
      case Some(start) =>
        var end := start + |sections[i].content|;
        var rest :- Located(text, sections, i + 1, end);
        Ok([Bound(sections[i].path, start, end)] + rest)
  }

  function Prefixed(bounds: seq<Bound>, rest: Outcome<seq<Bound>, ChunkError>): Outcome<seq<Bound>, ChunkError> {
    if rest.Ok? then Ok(bounds + rest.value) else rest
  }

  lemma PrefixedTwice(a: seq<Bound>, bound: Bound, rest: Outcome<seq<Bound>, ChunkError>)
    ensures Prefixed(a, Prefixed([bound], rest)) == Prefixed(a + [bound], rest)
  {
    if rest.Ok? {
      assert a + ([bound] + rest.value) == (a + [bound]) + rest.value;
    }
  }

  lemma LocatedStep(text: string, sections: seq<Section>, i: nat, from: nat)
    requires i < |sections| && from <= |text|
    ensures var found := Find(text, sections[i].content, from);
            && (found.None? ==> Located(text, sections, i, from) == Err(SectionLost))
            && (found.Some? ==>
                  var end := found.value + |sections[i].content|;
                  Located(text, sections, i, from)
                  == Prefixed([Bound(sections[i].path, found.value, end)], Located(text, sections, i + 1, end)))
  {
  }

  /** Sections without content are passed over. */
  function WithContent(bounds: seq<Bound>): (kept: seq<Bound>)
    ensures forall b :: b in kept <==> b in bounds && b.start < b.end
  {
    if bounds == [] then []
    else
      var last := bounds[|bounds| - 1];
      WithContent(bounds[..|bounds| - 1]) + if last.end > last.start then [last] else []
  }

  lemma {:induction false} WithContentAppend(bounds: seq<Bound>, last: Bound)
    ensures WithContent(bounds + [last]) == WithContent(bounds) + if last.end > last.start then [last] else []
  {
    assert (bounds + [last])[..|bounds|] == bounds;
  }

  lemma {:induction false} NothingFound(text: string, sections: seq<Section>)
    ensures WithContent([]) == []
    ensures Located(text, sections, 0, 0) == Prefixed([], Located(text, sections, 0, 0))
  {
    var located := Located(text, sections, 0, 0);
    if located.Ok? {
      assert [] + located.value == located.value;
    }
  }

  lemma {:induction false} NothingLeft(text: string, sections: seq<Section>, from: nat)
    requires from <= |text|
    ensures Located(text, sections, |sections|, from) == Ok([])
  {
  }

  // ---- Locating the pieces of one section -----------------------------------------------------------

  /** The remainder of a section from a cursor on. */
  function Rest(section: string, cursor: nat): string {
    if cursor <= |section| then section[cursor..] else ""
  }

  function Position(section: string, piece: string, cursor: nat): nat {
    match Find(Rest(section, cursor), piece, 0)
    case Some(i) => cursor + i
    case None => cursor
  }

  /** Where the pieces from piece k on start within the section. */
  function PieceStarts(section: string, pieces: seq<string>, k: nat, cursor: nat): seq<nat>
    requires k <= |pieces|
    decreases |pieces| - k
  {
    if k == |pieces| then []
    else if pieces[k] == "" then PieceStarts(section, pieces, k + 1, cursor)
    else
      var start := Position(section, pieces[k], cursor);
      (if IsSpaceText(pieces[k]) then [] else [start]) + PieceStarts(section, pieces, k + 1, start + |pieces[k]|)
  }

  /** What one piece adds. */
  lemma PieceStep(section: string, pieces: seq<string>, k: nat, cursor: nat)
    requires k < |pieces|
    ensures pieces[k] == "" ==> PieceStarts(section, pieces, k, cursor) == PieceStarts(section, pieces, k + 1, cursor)
    ensures pieces[k] != "" ==>
              var found := Find(Rest(section, cursor), pieces[k], 0);
              var start := if found.Some? then cursor + found.value else cursor;
              PieceStarts(section, pieces, k, cursor)
              == (if IsSpaceText(pieces[k]) then [] else [start]) + PieceStarts(section, pieces, k + 1, start + |pieces[k]|)
  {
    hide Find, Rest, IsSpaceText;
  }

  lemma {:induction false} NoPieces(section: string, pieces: seq<string>)
    ensures PieceStarts(section, pieces, 0, 0) == [] + PieceStarts(section, pieces, 0, 0)
  {
  }

  lemma {:induction false} PieceLast(section: string, pieces: seq<string>, cursor: nat)
    ensures PieceStarts(section, pieces, |pieces|, cursor) == []
  {
  }

  function StartsIn(text: string, bound: Bound, tools: Tools): seq<nat> {
    var section := Slice(text, bound.start, bound.end);
    Shifted(PieceStarts(section, tools.split(section), 0, 0), bound.start)
  }

  function Shifted(starts: seq<nat>, offset: nat): seq<nat> {
    seq(|starts|, i requires 0 <= i < |starts| => offset + starts[i])
  }

  // ---- Emitting the chunks of one section --------------------------------------------------------------

  /** _overlap_start */
  function OverlapStart(text: string, sectionStart: nat, cursor: nat, tools: Tools): (start: Option<nat>)
    requires TailFits(tools)
    ensures start.Some? ==> sectionStart <= start.value <= cursor
  {
    if cursor <= sectionStart then None
    else
      match tools.tail(Slice(text, sectionStart, cursor))
      case None => None
      case Some(tail) =>
        assert tail <= |Slice(text, sectionStart, cursor)|;
        Some(cursor - tail)
  }

  function EndOf(bound: Bound, starts: seq<nat>, i: nat): nat
    requires i < |starts|
  {
    if i + 1 < |starts| then starts[i + 1] else bound.end
  }

  /** The start of a chunk, moved back into the tail of the chunk before it. */
  function BaseOf(text: string, bound: Bound, start: nat, prevEnd: Option<nat>, tools: Tools): nat
    requires TailFits(tools)
  {
    match prevEnd
    case None => start
    case Some(cursor) =>
      match OverlapStart(text, bound.start, cursor, tools)
      case Some(overlap) => if overlap < start then overlap else start
      case None => start
  }

  function ChunkAt(text: string, bound: Bound, ordinal: nat, base: nat, end: nat, tools: Tools): Chunk {
    Chunk(ordinal, bound.path, Slice(text, base, end), tools.count(Slice(text, base, end)), base, end)
  }

  function Emitted(text: string, bound: Bound, starts: seq<nat>, i: nat, prevEnd: Option<nat>, ordinal: nat, tools: Tools): seq<Chunk>
    requires TailFits(tools) && i <= |starts|
    decreases |starts| - i
  {
    if i == |starts| then []
    else
      var end, base := EndOf(bound, starts, i), BaseOf(text, bound, starts[i], prevEnd, tools);
      if base >= end then Emitted(text, bound, starts, i + 1, Some(end), ordinal, tools)
      else [ChunkAt(text, bound, ordinal, base, end, tools)] + Emitted(text, bound, starts, i + 1, Some(end), ordinal + 1, tools)
  }

  lemma EmitStep(text: string, bound: Bound, starts: seq<nat>, i: nat, prevEnd: Option<nat>, ordinal: nat, tools: Tools)
    requires TailFits(tools) && i < |starts|
    ensures var end, base := EndOf(bound, starts, i), BaseOf(text, bound, starts[i], prevEnd, tools);
            Emitted(text, bound, starts, i, prevEnd, ordinal, tools)
            == if base >= end then Emitted(text, bound, starts, i + 1, Some(end), ordinal, tools)
               else [ChunkAt(text, bound, ordinal, base, end, tools)] + Emitted(text, bound, starts, i + 1, Some(end), ordinal + 1, tools)
  {
  }

  lemma {:induction false} EmitLast(text: string, bound: Bound, starts: seq<nat>, prevEnd: Option<nat>, ordinal: nat, tools: Tools)
    requires TailFits(tools)
    ensures Emitted(text, bound, starts, |starts|, prevEnd, ordinal, tools) == []
  {
  }

  lemma Regroup(before: seq<Chunk>, here: seq<Chunk>, rest: seq<Chunk>)
    ensures (before + here) + rest == before + (here + rest)
  {
  }

  function SectionChunks(text: string, bound: Bound, ordinal: nat, tools: Tools): seq<Chunk>
    requires TailFits(tools)
  {
    Emitted(text, bound, StartsIn(text, bound, tools), 0, None, ordinal, tools)
  }

  function AllChunks(text: string, bounds: seq<Bound>, b: nat, ordinal: nat, tools: Tools): seq<Chunk>
    requires TailFits(tools) && b <= |bounds|
    decreases |bounds| - b
  {
    if b == |bounds| then []
    else
      var here := SectionChunks(text, bounds[b], ordinal, tools);
      here + AllChunks(text, bounds, b + 1, ordinal + |here|, tools)
  }

  lemma NextSection(text: string, bounds: seq<Bound>, b: nat, ordinal: nat, tools: Tools)
    requires TailFits(tools) && b < |bounds|
    ensures var here := Emitted(text, bounds[b], StartsIn(text, bounds[b], tools), 0, None, ordinal, tools);
            AllChunks(text, bounds, b, ordinal, tools) == here + AllChunks(text, bounds, b + 1, ordinal + |here|, tools)
  {
    hide Emitted, StartsIn, TailFits;
  }

  lemma {:induction false} LastSection(text: string, bounds: seq<Bound>, ordinal: nat, tools: Tools)
    requires TailFits(tools)
    ensures AllChunks(text, bounds, |bounds|, ordinal, tools) == []
  {
  }

  function SplitDocument(document: LoadedDocument, tools: Tools): Outcome<seq<Chunk>, ChunkError>
    requires TailFits(tools)
  {
    if document.sections == [] then Err(NoSections)
    else
      var located :- Located(document.text, document.sections, 0, 0);
      var bounds := WithContent(located);
      if bounds == [] then Err(NoSections)
      else
        var chunks := AllChunks(document.text, bounds, 0, 0, tools);
        if chunks == [] then Err(NoChunks) else Ok(chunks)
  }

  // ---- The chunker as written: nested loops ----------------------------------------------------------------

  class KnowledgeChunker {
    const tools: Tools

    constructor (tools: Tools)
      ensures this.tools == tools
    {
      this.tools := tools;
    }

    method LocateSections(text: string, sections: seq<Section>) returns (located: Outcome<seq<Bound>, ChunkError>)
      ensures var all := Located(text, sections, 0, 0);
              located == if all.Ok? then Ok(WithContent(all.value)) else Err(all.error)
    {
      hide Located, WithContent;
      var bounds: seq<Bound>, searchFrom: nat := [], 0;
      ghost var found: seq<Bound> := [];
      NothingFound(text, sections);
      var i := 0;
      while i < |sections|
        invariant 0 <= i <= |sections| && searchFrom <= |text|
        invariant bounds == WithContent(found)
        invariant Located(text, sections, 0, 0) == Prefixed(found, Located(text, sections, i, searchFrom))
      {
        LocatedStep(text, sections, i, searchFrom);
        var start := Find(text, sections[i].content, searchFrom);
        if start.None? {
          return Err(SectionLost);
        }
        var end := start.value + |sections[i].content|;
        var bound := Bound(sections[i].path, start.value, end);
        WithContentAppend(found, bound);
        PrefixedTwice(found, bound, Located(text, sections, i + 1, end));
        found := found + [bound];
        if end > start.value {
          bounds := bounds + [bound];
        }
        searchFrom := end;
        i := i + 1;
      }
      NothingLeft(text, sections, searchFrom);
      assert found + [] == found;
      return Ok(bounds);
    }

    method LocatePieces(text: string, bound: Bound) returns (starts: seq<nat>)
      ensures starts == StartsIn(text, bound, tools)
    {
      hide Rest, IsSpaceText, Slice, PieceStarts, Position;
      var section := Slice(text, bound.start, bound.end);
      var pieces := tools.split(section);
      var found: seq<nat>, cursor: nat := [], 0;
      var k := 0;
      NoPieces(section, pieces);
      while k < |pieces|
        invariant 0 <= k <= |pieces|
        invariant PieceStarts(section, pieces, 0, 0) == found + PieceStarts(section, pieces, k, cursor)
      {
        PieceStep(section, pieces, k, cursor);
        if pieces[k] != "" {
          var idx := Find(Rest(section, cursor), pieces[k], 0);
          var start := if idx.Some? then cursor + idx.value else cursor;
          if !IsSpaceText(pieces[k]) {
            found := found + [start];
          }
          cursor := start + |pieces[k]|;
        }
        k := k + 1;
      }
      PieceLast(section, pieces, cursor);
      assert found + [] == found;
      return Shifted(found, bound.start);
    }

    method EmitChunks(text: string, bound: Bound, starts: seq<nat>, firstOrdinal: nat) returns (chunks: seq<Chunk>)
      requires TailFits(tools)
      ensures chunks == Emitted(text, bound, starts, 0, None, firstOrdinal, tools)
    {
      hide Emitted, OverlapStart, ChunkAt, TailFits;
      chunks := [];
      var ordinal, prevEnd: Option<nat> := firstOrdinal, None;
      var i := 0;
      while i < |starts|
        invariant 0 <= i <= |starts|
        invariant Emitted(text, bound, starts, 0, None, firstOrdinal, tools) == chunks + Emitted(text, bound, starts, i, prevEnd, ordinal, tools)
      {
        EmitStep(text, bound, starts, i, prevEnd, ordinal, tools);
        var end := EndOf(bound, starts, i);
        var base := starts[i];
        if prevEnd.Some? {
          var overlap := OverlapStart(text, bound.start, prevEnd.value, tools);
          if overlap.Some? && overlap.value < base {
            base := overlap.value;
          }
        }
        if base < end {
          var chunk := ChunkAt(text, bound, ordinal, base, end, tools);
          Regroup(chunks, [chunk], Emitted(text, bound, starts, i + 1, Some(end), ordinal + 1, tools));
          chunks := chunks + [chunk];
          ordinal := ordinal + 1;
        }
        prevEnd := Some(end);
        i := i + 1;
      }
      EmitLast(text, bound, starts, prevEnd, ordinal, tools);
      assert chunks + [] == chunks;
    }

    method Split(document: LoadedDocument) returns (outcome: Outcome<seq<Chunk>, ChunkError>)
      requires TailFits(tools)
      ensures outcome == SplitDocument(document, tools)
    {
      hide Located, WithContent, Emitted, StartsIn, AllChunks, TailFits;
      if document.sections == [] {
        return Err(NoSections);
      }
      var located := LocateSections(document.text, document.sections);
      if located.Err? {
        return Err(located.error);
      }
      var bounds := located.value;
      if bounds == [] {
        return Err(NoSections);
      }
      var chunks: seq<Chunk> := [];
      var b := 0;
      while b < |bounds|
        invariant 0 <= b <= |bounds|
        invariant AllChunks(document.text, bounds, 0, 0, tools) == chunks + AllChunks(document.text, bounds, b, |chunks|, tools)
      {
        var starts := LocatePieces(document.text, bounds[b]);
        var here := EmitChunks(document.text, bounds[b], starts, |chunks|);
        NextSection(document.text, bounds, b, |chunks|, tools);
        Regroup(chunks, here, AllChunks(document.text, bounds, b + 1, |chunks + here|, tools));
        chunks := chunks + here;
        b := b + 1;
      }
      LastSection(document.text, bounds, |chunks|, tools);
      assert chunks + [] == chunks;
      return if chunks == [] then Err(NoChunks) else Ok(chunks);
    }
  }
}
