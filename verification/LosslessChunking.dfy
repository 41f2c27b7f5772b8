/** Chunking loses nothing: for documents of the loader every section is found, its pieces
    are found where they are, and the chunks without their overlaps rebuild it. */
module LosslessChunking {
  import opened Outcomes
  import opened Text
  import opened Headings
  import opened DocumentLoader
  import opened Chunking

  // ---- Sections are found at or before their true positions --------------------------------------

  /** The sections stand in the text one after the other. */
  ghost predicate Placed(text: string, sections: seq<Section>, starts: seq<nat>) {
    && |starts| == |sections|
    && (forall i :: 0 <= i < |sections| ==> OccursAt(text, sections[i].content, starts[i]))
    && (forall i :: 0 < i < |sections| ==> starts[i - 1] + |sections[i - 1].content| <= starts[i])
  }

  ghost predicate FoundBefore(text: string, sections: seq<Section>, starts: seq<nat>, i: nat, from: nat, bounds: seq<Bound>)
    requires |starts| == |sections| && i <= |sections|
  {
    && |bounds| == |sections| - i
    && (forall k :: 0 <= k < |bounds| ==> BoundFits(text, sections[i + k], starts[i + k], bounds[k]))
    && (forall k :: 0 < k < |bounds| ==> bounds[k - 1].end <= bounds[k].start)
    && (bounds != [] ==> from <= bounds[0].start)
  }

  /** A located span holds exactly the content of its section, at or before its true start. */
  predicate BoundFits(text: string, section: Section, start: nat, bound: Bound) {
    && bound.path == section.path
    && OccursAt(text, section.content, bound.start)
    && bound.end == bound.start + |section.content|
    && bound.start <= start
  }

  lemma {:induction false} SectionsAreFound(text: string, sections: seq<Section>, starts: seq<nat>, i: nat, from: nat)
    requires Placed(text, sections, starts) && i <= |sections| && from <= |text|
    requires i < |sections| ==> from <= starts[i]
    ensures var located := Located(text, sections, i, from);
            located.Ok? && FoundBefore(text, sections, starts, i, from, located.value)
    decreases |sections| - i
  {
    hide OccursAt;
    if i < |sections| {
      var content := sections[i].content;
      assert OccursAt(text, content, starts[i]);
      var start := Find(text, content, from).value;
      OccurrenceEnds(text, content, start);
      SectionsAreFound(text, sections, starts, i + 1, start + |content|);
    }
  }

  lemma OccurrenceEnds(text: string, pattern: string, i: nat)
    requires OccursAt(text, pattern, i)
    ensures i + |pattern| <= |text|
  {
  }

  function TrueStarts(lines: seq<string>, spans: seq<Span>): seq<nat>
    requires InLines(lines, spans)
  {
    seq(|spans|, i requires 0 <= i < |spans| => TrueStart(lines, spans[i]))
  }

  /** For every document of the loader the search never fails, and gives increasing,
      disjoint spans at or before the true positions of the sections. */
  lemma LoadedSectionsAreFound(document: LoadedDocument) returns (starts: seq<nat>)
    requires LoadedBy(document)
    ensures Placed(document.text, document.sections, starts)
    ensures document.sections == SectionsOf(Lines(document.text)) ==>
              InLines(Lines(document.text), SpansOf(Lines(document.text)))
              && starts == TrueStarts(Lines(document.text), SpansOf(Lines(document.text)))
    ensures var located := Located(document.text, document.sections, 0, 0);
            located.Ok? && FoundBefore(document.text, document.sections, starts, 0, 0, located.value)
  {
    if document.sections == SectionsOf(Lines(document.text)) {
      starts := MarkdownPlaced(document.text);
    } else {
      starts := [0];
    }
    SectionsAreFound(document.text, document.sections, starts, 0, 0);
  }

  lemma MarkdownPlaced(text: string) returns (starts: seq<nat>)
    ensures Placed(text, SectionsOf(Lines(text)), starts)
    ensures InLines(Lines(text), SpansOf(Lines(text))) && starts == TrueStarts(Lines(text), SpansOf(Lines(text)))
  {
    hide SpansOf, SectionsOf, SectionsAt, Lines;
    var lines := Lines(text);
    SectionsOfLines(lines);
    starts := TrueStarts(lines, SpansOf(lines));
    forall i | 0 <= i < |SectionsOf(lines)|
      ensures OccursAt(text, SectionsOf(lines)[i].content, starts[i])
      ensures i > 0 ==> starts[i - 1] + |SectionsOf(lines)[i - 1].content| <= starts[i]
    {
      SectionsInText(text, i);
    }
  }

  // ---- Pieces are found at their true offsets ------------------------------------------------------

  function PieceEnd(pieces: seq<string>, starts: seq<nat>, k: nat): nat
    requires |starts| == |pieces| && k <= |pieces|
  {
    if k == 0 then 0 else starts[k - 1] + |pieces[k - 1]|
  }

  /** A section as white-space gaps interleaved with pieces that start with a character. */
  ghost predicate Interleaves(section: string, pieces: seq<string>, starts: seq<nat>) {
    && |starts| == |pieces|
    && (forall k :: 0 <= k < |pieces| ==> pieces[k] != "" && !IsSpace(pieces[k][0]) && OccursAt(section, pieces[k], starts[k]))
    && (forall k :: 0 <= k < |pieces| ==> PieceEnd(pieces, starts, k) <= starts[k] && GapAt(section, PieceEnd(pieces, starts, k), starts[k]))
    && PieceEnd(pieces, starts, |pieces|) <= |section|
    && GapAt(section, PieceEnd(pieces, starts, |pieces|), |section|)
  }

  predicate GapAt(section: string, from: nat, to: nat) {
    forall i :: from <= i < to && i < |section| ==> IsSpace(section[i])
  }

  /** The contract of the splitter. */
  ghost predicate SplitterFits(tools: Tools) {
    forall section: string :: exists starts :: Interleaves(section, tools.split(section), starts)
  }

  /** The first occurrence of a piece after the gap before it is the piece itself. */
  lemma PieceIsFound(section: string, piece: string, cursor: nat, start: nat)
    requires cursor <= start && OccursAt(section, piece, start) && piece != "" && !IsSpace(piece[0])
    requires GapAt(section, cursor, start)
    ensures Position(section, piece, cursor) == start
  {
    var rest := Rest(section, cursor);
    assert rest[start - cursor..start - cursor + |piece|] == section[start..start + |piece|];
    assert OccursAt(rest, piece, start - cursor);
    var found := Find(rest, piece, 0).value;
    assert rest[found..found + |piece|][0] == rest[found] == section[cursor + found];
  }

  lemma {:induction false} PiecesAreFound(section: string, pieces: seq<string>, starts: seq<nat>, k: nat)
    requires Interleaves(section, pieces, starts) && k <= |pieces|
    ensures PieceStarts(section, pieces, k, PieceEnd(pieces, starts, k)) == starts[k..]
    decreases |pieces| - k
  {
    hide Interleaves, IsSpaceText, Position;
    PieceCount(section, pieces, starts);
    if k < |pieces| {
      PieceAt(section, pieces, starts, k);
      PiecesAreFound(section, pieces, starts, k + 1);
      assert [starts[k]] + starts[k + 1..] == starts[k..];
    }
  }

  lemma PieceAt(section: string, pieces: seq<string>, starts: seq<nat>, k: nat)
    requires Interleaves(section, pieces, starts) && k < |pieces|
    ensures |starts| == |pieces|
    ensures pieces[k] != "" && !IsSpaceText(pieces[k])
    ensures Position(section, pieces[k], PieceEnd(pieces, starts, k)) == starts[k]
  {
    hide OccursAt, GapAt, Position, IsSpace, IsSpaceText;
    PieceIsFound(section, pieces[k], PieceEnd(pieces, starts, k), starts[k]);
    PieceHasText(pieces[k]);
  }

  lemma PieceHasText(piece: string)
    requires piece != "" && !IsSpace(piece[0])
    ensures !IsSpaceText(piece)
  {
  }

  // ---- The chunks of one section ----------------------------------------------------------------------

  /** Chunk k spans from its piece (or earlier, into the chunk before it) to the next piece
      or the end of the section, and is that slice of the text. */
  ghost predicate Tiles(text: string, bound: Bound, starts: seq<nat>, i: nat, ordinal: nat, chunks: seq<Chunk>)
    requires i <= |starts|
  {
    && |chunks| == |starts| - i
    && (forall k :: 0 <= k < |chunks| ==> TileFits(text, bound, starts, i + k, ordinal + k, chunks[k]))
  }

  predicate TileFits(text: string, bound: Bound, starts: seq<nat>, k: nat, ordinal: nat, chunk: Chunk)
    requires k < |starts|
  {
    && chunk.ordinal == ordinal && chunk.path == bound.path
    && bound.start <= chunk.start <= starts[k] < chunk.end == EndOf(bound, starts, k) <= |text|
    && (k == 0 ==> chunk.start == starts[k])
    && chunk.content == text[chunk.start..chunk.end]
  }

  /** Piece starts within a section, in order. */
  predicate StartsFit(text: string, bound: Bound, starts: seq<nat>) {
    && bound.end <= |text|
    && (forall k :: 0 <= k < |starts| ==> bound.start <= starts[k] < bound.end)
    && (forall k :: 0 < k < |starts| ==> starts[k - 1] < starts[k])
  }

  lemma {:induction false} EmittedTiles(text: string, bound: Bound, starts: seq<nat>, i: nat, prevEnd: Option<nat>, ordinal: nat, tools: Tools)
    requires TailFits(tools) && StartsFit(text, bound, starts) && i <= |starts|
    requires i == 0 <==> prevEnd.None?
    requires prevEnd.Some? && i < |starts| ==> prevEnd.value == starts[i]
    ensures Tiles(text, bound, starts, i, ordinal, Emitted(text, bound, starts, i, prevEnd, ordinal, tools))
    decreases |starts| - i
  {
    hide TailFits, OverlapStart;
    if i < |starts| {
      BaseFits(text, bound, starts[i], prevEnd, tools);
      EmittedTiles(text, bound, starts, i + 1, Some(EndOf(bound, starts, i)), ordinal + 1, tools);
      var rest := Emitted(text, bound, starts, i + 1, Some(EndOf(bound, starts, i)), ordinal + 1, tools);
      var chunks := Emitted(text, bound, starts, i, prevEnd, ordinal, tools);
      assert forall k :: 0 < k < |chunks| ==> chunks[k] == rest[k - 1];
    }
  }

  lemma BaseFits(text: string, bound: Bound, start: nat, prevEnd: Option<nat>, tools: Tools)
    requires TailFits(tools) && bound.start <= start
    ensures bound.start <= BaseOf(text, bound, start, prevEnd, tools) <= start
    ensures prevEnd.None? ==> BaseOf(text, bound, start, prevEnd, tools) == start
  {
  }

  /** Joining the chunks, each without the part that overlaps its predecessor. */
  function Rebuilt(chunks: seq<Chunk>): string {
    if chunks == [] then ""
    else
      var n := |chunks| - 1;
      Rebuilt(chunks[..n]) + if n == 0 then chunks[n].content else WithoutOverlap(chunks[n - 1], chunks[n])
  }

  function WithoutOverlap(before: Chunk, chunk: Chunk): string {
    if chunk.start <= before.end <= chunk.start + |chunk.content| then chunk.content[before.end - chunk.start..] else chunk.content
  }

  lemma {:induction false} TilesRebuild(text: string, bound: Bound, starts: seq<nat>, chunks: seq<Chunk>, ordinal: nat, n: nat)
    requires StartsFit(text, bound, starts) && Tiles(text, bound, starts, 0, ordinal, chunks) && 0 < n <= |chunks|
    ensures starts[0] <= chunks[n - 1].end <= |text| && Rebuilt(chunks[..n]) == text[starts[0]..chunks[n - 1].end]
  {
    hide TileFits, WithoutOverlap;
    TileAt(text, bound, starts, ordinal, chunks, n - 1);
    if n == 1 {
      assert chunks[..1] == [chunks[0]];
    } else {
      TilesRebuild(text, bound, starts, chunks, ordinal, n - 1);
      TileAt(text, bound, starts, ordinal, chunks, n - 2);
      assert chunks[..n][..n - 1] == chunks[..n - 1];
      var before, chunk := chunks[n - 2], chunks[n - 1];
      NextPart(text, before, chunk);
      assert text[starts[0]..before.end] + text[before.end..chunk.end] == text[starts[0]..chunk.end];
    }
  }

  lemma TileAt(text: string, bound: Bound, starts: seq<nat>, ordinal: nat, chunks: seq<Chunk>, k: nat)
    requires Tiles(text, bound, starts, 0, ordinal, chunks) && k < |chunks|
    ensures var chunk := chunks[k];
            && chunk.start <= starts[k] < chunk.end == EndOf(bound, starts, k) <= |text|
            && (k == 0 ==> chunk.start == starts[k])
            && chunk.content == text[chunk.start..chunk.end]
  {
    assert TileFits(text, bound, starts, 0 + k, ordinal + k, chunks[k]);
  }

  lemma NextPart(text: string, before: Chunk, chunk: Chunk)
    requires chunk.start <= before.end <= chunk.end <= |text| && chunk.content == text[chunk.start..chunk.end]
    ensures WithoutOverlap(before, chunk) == text[before.end..chunk.end]
  {
  }

  // ---- One section ----------------------------------------------------------------------------------

  /** The chunks of a section: in order, each the slice of the text it says, overlapping or
      touching its predecessor; what precedes the first is white space, and without the
      overlaps they are the rest of the section. */
  ghost predicate Lossless(text: string, bound: Bound, ordinal: nat, chunks: seq<Chunk>) {
    && bound.start <= bound.end <= |text|
    && (chunks == [] ==> AllSpace(text[bound.start..bound.end]))
    && (forall k :: 0 <= k < |chunks| ==> IsSliceOf(text, bound, ordinal + k, chunks[k]))
    && (forall k :: 0 < k < |chunks| ==> chunks[k].start <= chunks[k - 1].end < chunks[k].end)
    && (chunks != [] ==>
          && AllSpace(text[bound.start..chunks[0].start])
          && Rebuilt(chunks) == text[chunks[0].start..bound.end])
  }

  predicate IsSliceOf(text: string, bound: Bound, ordinal: nat, chunk: Chunk) {
    && chunk.ordinal == ordinal && chunk.path == bound.path
    && bound.start <= chunk.start < chunk.end <= bound.end <= |text|
    && chunk.content == text[chunk.start..chunk.end]
  }

  /** Under the contract the pieces of a span start where they are, with white space before
      the first. */
  lemma StartsAreTrue(text: string, bound: Bound, tools: Tools)
    requires SplitterFits(tools) && bound.start <= bound.end <= |text|
    ensures var starts := StartsIn(text, bound, tools);
            && StartsFit(text, bound, starts)
            && AllSpace(text[bound.start..if starts == [] then bound.end else starts[0]])
            && var pieces := tools.split(Slice(text, bound.start, bound.end));
            |starts| == |pieces| && forall k :: 0 <= k < |pieces| ==> OccursAt(text, pieces[k], starts[k])
  {
    hide IsSpace, PieceStarts, Interleaves, StartsFit;
    var section := Slice(text, bound.start, bound.end);
    var pieces := tools.split(section);
    var starts :| Interleaves(section, pieces, starts);
    PiecesAreFound(section, pieces, starts, 0);
    PieceCount(section, pieces, starts);
    assert starts[0..] == starts;
    InterleavesInside(section, pieces, starts);
    ShiftedFits(text, bound, starts);
    ShiftedOccur(text, bound, pieces, starts);
  }

  lemma ShiftedOccur(text: string, bound: Bound, pieces: seq<string>, starts: seq<nat>)
    requires bound.start <= bound.end <= |text| && Interleaves(Slice(text, bound.start, bound.end), pieces, starts)
    ensures |starts| == |pieces| && forall k :: 0 <= k < |pieces| ==> OccursAt(text, pieces[k], bound.start + starts[k])
  {
    hide IsSpace, GapAt, OccursAt, Slice;
    forall k | 0 <= k < |pieces|
      ensures OccursAt(text, pieces[k], bound.start + starts[k])
    {
      OccursInText(text, bound, pieces[k], starts[k]);
    }
  }

  lemma OccursInText(text: string, bound: Bound, piece: string, start: nat)
    requires bound.start <= bound.end <= |text| && OccursAt(Slice(text, bound.start, bound.end), piece, start)
    ensures OccursAt(text, piece, bound.start + start)
  {
    var section := Slice(text, bound.start, bound.end);
    assert section == text[bound.start..bound.end];
    assert text[bound.start + start..bound.start + start + |piece|] == section[start..start + |piece|];
  }

  lemma PieceCount(section: string, pieces: seq<string>, starts: seq<nat>)
    requires Interleaves(section, pieces, starts)
    ensures |starts| == |pieces| && PieceEnd(pieces, starts, 0) == 0
  {
  }

  lemma ShiftedFits(text: string, bound: Bound, starts: seq<nat>)
    requires bound.start <= bound.end <= |text|
    requires var section := Slice(text, bound.start, bound.end);
             && (forall k :: 0 <= k < |starts| ==> starts[k] < |section|)
             && (forall k :: 0 < k < |starts| ==> starts[k - 1] < starts[k])
             && (forall i :: 0 <= i < (if starts == [] then |section| else starts[0]) ==> IsSpace(section[i]))
    ensures var shifted := Shifted(starts, bound.start);
            && StartsFit(text, bound, shifted)
            && AllSpace(text[bound.start..if shifted == [] then bound.end else shifted[0]])
  {
    hide IsSpace;
    var section, shifted := Slice(text, bound.start, bound.end), Shifted(starts, bound.start);
    assert section == text[bound.start..bound.end];
    var first := if shifted == [] then bound.end else shifted[0];
    forall i | 0 <= i < first - bound.start
      ensures IsSpace(text[bound.start..first][i])
    {
      assert text[bound.start..first][i] == section[i];
    }
  }

  lemma InterleavesInside(section: string, pieces: seq<string>, starts: seq<nat>)
    requires Interleaves(section, pieces, starts)
    ensures forall k :: 0 <= k < |starts| ==> starts[k] < |section|
    ensures forall k :: 0 < k < |starts| ==> starts[k - 1] < starts[k]
    ensures forall i :: 0 <= i < (if starts == [] then |section| else starts[0]) ==> IsSpace(section[i])
  {
    forall k | 0 < k < |starts|
      ensures starts[k - 1] < starts[k]
    {
      assert PieceEnd(pieces, starts, k) <= starts[k];
    }
    assert starts != [] ==> GapAt(section, PieceEnd(pieces, starts, 0), starts[0]);
  }

  lemma SectionIsLossless(text: string, bound: Bound, ordinal: nat, tools: Tools)
    requires SplitterFits(tools) && TailFits(tools) && bound.start <= bound.end <= |text|
    ensures Lossless(text, bound, ordinal, SectionChunks(text, bound, ordinal, tools))
  {
    hide SplitterFits, TailFits, IsSpace, StartsIn;
    StartsAreTrue(text, bound, tools);
    var starts := StartsIn(text, bound, tools);
    EmittedTiles(text, bound, starts, 0, None, ordinal, tools);
    TilesAreLossless(text, bound, starts, ordinal, SectionChunks(text, bound, ordinal, tools));
  }

  lemma TilesAreLossless(text: string, bound: Bound, starts: seq<nat>, ordinal: nat, chunks: seq<Chunk>)
    requires bound.start <= bound.end && StartsFit(text, bound, starts) && Tiles(text, bound, starts, 0, ordinal, chunks)
    requires AllSpace(text[bound.start..if starts == [] then bound.end else starts[0]])
    ensures Lossless(text, bound, ordinal, chunks)
  {
    hide AllSpace, IsSliceOf, TileFits, StartsFit, Tiles, Rebuilt;
    TileCount(text, bound, starts, ordinal, chunks);
    forall k | 0 <= k < |chunks|
      ensures IsSliceOf(text, bound, ordinal + k, chunks[k])
      ensures k > 0 ==> chunks[k].start <= chunks[k - 1].end < chunks[k].end
    {
      TileIsSlice(text, bound, starts, ordinal, chunks, k);
    }
    if chunks != [] {
      TileAt(text, bound, starts, ordinal, chunks, 0);
      TileAt(text, bound, starts, ordinal, chunks, |chunks| - 1);
      TilesRebuild(text, bound, starts, chunks, ordinal, |chunks|);
      assert chunks[..|chunks|] == chunks;
    }
  }

  lemma TileCount(text: string, bound: Bound, starts: seq<nat>, ordinal: nat, chunks: seq<Chunk>)
    requires StartsFit(text, bound, starts) && Tiles(text, bound, starts, 0, ordinal, chunks)
    ensures |chunks| == |starts| && bound.end <= |text|
  {
  }

  lemma TileIsSlice(text: string, bound: Bound, starts: seq<nat>, ordinal: nat, chunks: seq<Chunk>, k: nat)
    requires StartsFit(text, bound, starts) && Tiles(text, bound, starts, 0, ordinal, chunks) && k < |chunks|
    ensures IsSliceOf(text, bound, ordinal + k, chunks[k])
    ensures k > 0 ==> chunks[k].start <= chunks[k - 1].end < chunks[k].end
  {
    assert TileFits(text, bound, starts, 0 + k, ordinal + k, chunks[k]);
    if k > 0 {
      TileAt(text, bound, starts, ordinal, chunks, k - 1);
    }
  }

  // ---- The overlaps ----------------------------------------------------------------------------------------

  /** One chunk for every piece of the span: it reaches to the next piece, counts its own tokens, and
      starts at its piece, or, after the first, at the token tail of the span up to there. */
  ghost predicate Overlaps(text: string, bound: Bound, chunks: seq<Chunk>, tools: Tools)
    requires bound.start <= bound.end <= |text|
  {
    var pieces := tools.split(text[bound.start..bound.end]);
    && |chunks| == |pieces|
    && (forall k :: 0 <= k < |chunks| ==> chunks[k].tokens == tools.count(chunks[k].content))
    && (chunks != [] ==> OccursAt(text, pieces[0], chunks[0].start) && chunks[|chunks| - 1].end == bound.end)
    && (forall k :: 0 < k < |chunks| ==> Follows(text, bound, chunks[k - 1], chunks[k], pieces[k], tools))
  }

  /** A chunk that starts at the token tail of what its section has before its piece. */
  predicate Follows(text: string, bound: Bound, before: Chunk, chunk: Chunk, piece: string, tools: Tools) {
    && OccursAt(text, piece, before.end) && bound.start <= before.end <= |text|
    && chunk.start == before.end - TailLength(tools, text[bound.start..before.end])
  }

  /** How many characters the overlap takes back. */
  function TailLength(tools: Tools, before: string): nat {
    match tools.tail(before)
    case Some(characters) => characters
    case None => 0
  }

  /** What the emitted chunks start with and count. */
  ghost predicate StartsAtTails(text: string, bound: Bound, starts: seq<nat>, i: nat, chunks: seq<Chunk>, tools: Tools)
    requires i <= |starts| && StartsFit(text, bound, starts)
  {
    && |chunks| == |starts| - i
    && (forall k :: 0 <= k < |chunks| ==> chunks[k].tokens == tools.count(chunks[k].content))
    && (forall k :: 0 <= k < |chunks| && i + k > 0 ==> IsTailStart(text, bound, starts[i + k], chunks[k], tools))
  }

  predicate IsTailStart(text: string, bound: Bound, end: nat, chunk: Chunk, tools: Tools) {
    bound.start <= end <= |text| && chunk.start == end - TailLength(tools, text[bound.start..end])
  }

  lemma {:induction false} EmittedStartsAtTails(text: string, bound: Bound, starts: seq<nat>, i: nat, prevEnd: Option<nat>, ordinal: nat, tools: Tools)
    requires TailFits(tools) && StartsFit(text, bound, starts) && i <= |starts|
    requires i == 0 <==> prevEnd.None?
    requires prevEnd.Some? && i < |starts| ==> prevEnd.value == starts[i]
    ensures StartsAtTails(text, bound, starts, i, Emitted(text, bound, starts, i, prevEnd, ordinal, tools), tools)
    decreases |starts| - i
  {
    hide TailFits, OverlapStart, Emitted, BaseOf, IsTailStart, Slice;
    if i == |starts| {
      EmitLast(text, bound, starts, prevEnd, ordinal, tools);
    } else {
      var end, base := EndOf(bound, starts, i), BaseOf(text, bound, starts[i], prevEnd, tools);
      BaseFits(text, bound, starts[i], prevEnd, tools);
      EmitStep(text, bound, starts, i, prevEnd, ordinal, tools);
      EmittedStartsAtTails(text, bound, starts, i + 1, Some(end), ordinal + 1, tools);
      var first, rest := ChunkAt(text, bound, ordinal, base, end, tools), Emitted(text, bound, starts, i + 1, Some(end), ordinal + 1, tools);
      if i > 0 {
        BaseIsTail(text, bound, starts, i, tools);
        TailStarts(text, bound, starts, i, first, tools);
      }
      assert ([first] + rest)[0] == first && forall k :: 0 < k <= |rest| ==> ([first] + rest)[k] == rest[k - 1];
    }
  }

  lemma TailStarts(text: string, bound: Bound, starts: seq<nat>, i: nat, chunk: Chunk, tools: Tools)
    requires i < |starts| && bound.start <= starts[i] <= |text|
    requires chunk.start == starts[i] - TailLength(tools, text[bound.start..starts[i]])
    ensures IsTailStart(text, bound, starts[i], chunk, tools)
  {
  }

  lemma BaseIsTail(text: string, bound: Bound, starts: seq<nat>, i: nat, tools: Tools)
    requires TailFits(tools) && StartsFit(text, bound, starts) && 0 < i < |starts|
    ensures BaseOf(text, bound, starts[i], Some(starts[i]), tools) == starts[i] - TailLength(tools, text[bound.start..starts[i]])
  {
    hide TailFits;
    assert bound.start <= starts[i - 1] < starts[i];
  }

  /** Under the contracts of splitter and tokenizer every section is chunked so. */
  lemma SectionOverlaps(text: string, bound: Bound, ordinal: nat, tools: Tools)
    requires SplitterFits(tools) && TailFits(tools) && bound.start <= bound.end <= |text|
    ensures Overlaps(text, bound, SectionChunks(text, bound, ordinal, tools), tools)
  {
    hide SplitterFits, TailFits, IsSpace, StartsIn, TailLength, Emitted;
    StartsAreTrue(text, bound, tools);
    var starts, chunks := StartsIn(text, bound, tools), SectionChunks(text, bound, ordinal, tools);
    EmittedTiles(text, bound, starts, 0, None, ordinal, tools);
    EmittedStartsAtTails(text, bound, starts, 0, None, ordinal, tools);
    assert text[bound.start..bound.end] == Slice(text, bound.start, bound.end);
    forall k | 0 <= k < |chunks|
      ensures chunks[k].end == EndOf(bound, starts, k) && (k == 0 ==> chunks[k].start == starts[0])
    {
      assert TileFits(text, bound, starts, 0 + k, ordinal + k, chunks[k]);
    }
  }

  // ---- The whole document ------------------------------------------------------------------------------

  function Flatten(groups: seq<seq<Chunk>>): seq<Chunk> {
    if groups == [] then [] else Flatten(groups[..|groups| - 1]) + groups[|groups| - 1]
  }

  /** The chunks fall into one group per span, in order, and no group loses anything. */
  ghost predicate LosslessGroups(text: string, bounds: seq<Bound>, groups: seq<seq<Chunk>>) {
    && |groups| == |bounds|
    && forall b :: 0 <= b < |bounds| ==> Lossless(text, bounds[b], |Flatten(groups[..b])|, groups[b])
  }

  ghost predicate OverlappingGroups(text: string, bounds: seq<Bound>, groups: seq<seq<Chunk>>, tools: Tools) {
    && |groups| == |bounds|
    && forall b :: 0 <= b < |bounds| ==> bounds[b].start <= bounds[b].end <= |text| && Overlaps(text, bounds[b], groups[b], tools)
  }

  predicate BoundsInText(text: string, bounds: seq<Bound>) {
    forall b :: 0 <= b < |bounds| ==> bounds[b].start < bounds[b].end <= |text|
  }

  lemma {:induction false} ChunksAreLossless(text: string, bounds: seq<Bound>, b: nat, tools: Tools) returns (groups: seq<seq<Chunk>>)
    requires SplitterFits(tools) && TailFits(tools) && BoundsInText(text, bounds) && b <= |bounds|
    ensures LosslessGroups(text, bounds[..b], groups) && OverlappingGroups(text, bounds[..b], groups, tools)
    ensures AllChunks(text, bounds, 0, 0, tools) == Flatten(groups) + AllChunks(text, bounds, b, |Flatten(groups)|, tools)
  {
    hide SplitterFits, TailFits, Lossless, OverlappingGroups, SectionChunks;
    NoOverlaps(text, tools);
    if b == 0 {
      groups := [];
      assert [] + AllChunks(text, bounds, 0, 0, tools) == AllChunks(text, bounds, 0, 0, tools);
    } else {
      var before := ChunksAreLossless(text, bounds, b - 1, tools);
      var ordinal := |Flatten(before)|;
      var here := SectionChunks(text, bounds[b - 1], ordinal, tools);
      SectionIsLossless(text, bounds[b - 1], ordinal, tools);
      SectionOverlaps(text, bounds[b - 1], ordinal, tools);
      OverlapAdded(text, bounds[..b - 1], before, bounds[b - 1], here, tools);
      assert bounds[..b] == bounds[..b - 1] + [bounds[b - 1]];
      groups := before + [here];
      GroupAdded(text, bounds, b, before, here);
      assert Flatten(before) + (here + AllChunks(text, bounds, b, ordinal + |here|, tools))
          == (Flatten(before) + here) + AllChunks(text, bounds, b, ordinal + |here|, tools);
    }
  }

  lemma NoOverlaps(text: string, tools: Tools)
    ensures OverlappingGroups(text, [], [], tools)
  {
  }

  lemma OverlapAdded(text: string, bounds: seq<Bound>, groups: seq<seq<Chunk>>, bound: Bound, here: seq<Chunk>, tools: Tools)
    requires OverlappingGroups(text, bounds, groups, tools) && bound.start <= bound.end <= |text| && Overlaps(text, bound, here, tools)
    ensures OverlappingGroups(text, bounds + [bound], groups + [here], tools)
  {
    hide Overlaps;
  }

  lemma {:induction false} GroupAdded(text: string, bounds: seq<Bound>, b: nat, before: seq<seq<Chunk>>, here: seq<Chunk>)
    requires 0 < b <= |bounds| && LosslessGroups(text, bounds[..b - 1], before)
    requires Lossless(text, bounds[b - 1], |Flatten(before)|, here)
    ensures LosslessGroups(text, bounds[..b], before + [here])
    ensures Flatten(before + [here]) == Flatten(before) + here
  {
    hide Lossless;
    var groups := before + [here];
    assert groups[..|groups| - 1] == before;
    forall i | 0 <= i < b
      ensures Lossless(text, bounds[..b][i], |Flatten(groups[..i])|, groups[i])
    {
      if i < b - 1 {
        assert groups[..i] == before[..i] && bounds[..b][i] == bounds[..b - 1][i];
      } else {
        assert groups[..i] == before;
      }
    }
  }

  /** Splitting a document of the loader succeeds exactly if some section has content, and
      then loses nothing: the spans hold the sections with content in order, and each span
      is rebuilt by its group of chunks. */
  lemma SplitIsLossless(document: LoadedDocument, tools: Tools) returns (bounds: seq<Bound>, groups: seq<seq<Chunk>>)
    requires LoadedBy(document) && SplitterFits(tools) && TailFits(tools)
    ensures Located(document.text, document.sections, 0, 0).Ok?
    ensures bounds == WithContent(Located(document.text, document.sections, 0, 0).value)
    ensures SplitDocument(document, tools).Ok? <==> exists i :: 0 <= i < |document.sections| && document.sections[i].content != ""
    ensures SplitDocument(document, tools).Ok? ==>
              && LosslessGroups(document.text, bounds, groups) && OverlappingGroups(document.text, bounds, groups, tools)
              && SplitDocument(document, tools).value == Flatten(groups)
  {
    hide SplitterFits, TailFits, LoadedBy, LosslessGroups, OverlappingGroups, WithContent, AllChunks;
    var starts := LoadedSectionsAreFound(document);
    var located := Located(document.text, document.sections, 0, 0).value;
    bounds := WithContent(located);
    SpansOfSections(document, starts, located);
    groups := ChunksAreLossless(document.text, bounds, |bounds|, tools);
    assert bounds[..|bounds|] == bounds;
    NoMoreChunks(document.text, bounds, |Flatten(groups)|, tools);
    if bounds != [] {
      SomeChunk(document, starts, located, bounds, groups);
    }
  }

  /** So it is for every upload that the loader accepts. */
  lemma UploadIsLossless(content: Bytes, source: SourceType, parser: Option<Parser>, tools: Tools)
    returns (bounds: seq<Bound>, groups: seq<seq<Chunk>>)
    requires Load(content, source, parser).Ok? && SplitterFits(tools) && TailFits(tools)
    ensures var document := Load(content, source, parser).value;
            && Located(document.text, document.sections, 0, 0).Ok?
            && bounds == WithContent(Located(document.text, document.sections, 0, 0).value)
            && (SplitDocument(document, tools).Ok? <==> exists i :: 0 <= i < |document.sections| && document.sections[i].content != "")
            && (SplitDocument(document, tools).Ok? ==>
                  && LosslessGroups(document.text, bounds, groups) && OverlappingGroups(document.text, bounds, groups, tools)
                  && SplitDocument(document, tools).value == Flatten(groups))
  {
    hide Load, SplitterFits, TailFits, LoadedBy, LosslessGroups, OverlappingGroups, SplitDocument, WithContent;
    LoadedHasSections(content, source, parser);
    bounds, groups := SplitIsLossless(Load(content, source, parser).value, tools);
  }

  lemma {:induction false} NoMoreChunks(text: string, bounds: seq<Bound>, ordinal: nat, tools: Tools)
    requires TailFits(tools)
    ensures AllChunks(text, bounds, |bounds|, ordinal, tools) == []
  {
  }

  lemma {:induction false} SpansOfSections(document: LoadedDocument, starts: seq<nat>, located: seq<Bound>)
    requires |starts| == |document.sections| && FoundBefore(document.text, document.sections, starts, 0, 0, located)
    ensures BoundsInText(document.text, WithContent(located))
    ensures WithContent(located) != [] <==> exists i :: 0 <= i < |document.sections| && document.sections[i].content != ""
  {
    var bounds := WithContent(located);
    forall b | 0 <= b < |bounds|
      ensures bounds[b].start < bounds[b].end <= |document.text|
    {
      assert bounds[b] in bounds;
      var i :| 0 <= i < |located| && located[i] == bounds[b];
      assert BoundFits(document.text, document.sections[0 + i], starts[0 + i], located[i]);
    }
    if i :| 0 <= i < |document.sections| && document.sections[i].content != "" {
      assert BoundFits(document.text, document.sections[0 + i], starts[0 + i], located[i]);
      assert located[i] in bounds;
    }
    if bounds != [] {
      assert bounds[0] in bounds;
      var i :| 0 <= i < |located| && located[i] == bounds[0];
      assert BoundFits(document.text, document.sections[0 + i], starts[0 + i], located[i]);
    }
  }

  /** A section with content is not blank, so its group has a chunk. */
  lemma {:induction false} SomeChunk(document: LoadedDocument, starts: seq<nat>, located: seq<Bound>, bounds: seq<Bound>, groups: seq<seq<Chunk>>)
    requires LoadedBy(document) && |starts| == |document.sections|
    requires FoundBefore(document.text, document.sections, starts, 0, 0, located) && bounds == WithContent(located) && bounds != []
    requires LosslessGroups(document.text, bounds, groups)
    ensures Flatten(groups) != []
  {
    hide LoadedBy, FoundBefore, LosslessGroups, Lossless, WithContent;
    var b := |bounds| - 1;
    BoundHasText(document, starts, located, b);
    GroupIsLossless(document.text, bounds, groups, b);
    GroupHasChunk(document.text, bounds[b], |Flatten(groups[..b])|, groups[b]);
    assert groups[..|groups| - 1] == groups[..b];
  }

  lemma GroupIsLossless(text: string, bounds: seq<Bound>, groups: seq<seq<Chunk>>, b: nat)
    requires LosslessGroups(text, bounds, groups) && b < |bounds|
    ensures |groups| == |bounds| && Lossless(text, bounds[b], |Flatten(groups[..b])|, groups[b])
  {
    hide Lossless;
  }

  lemma GroupHasChunk(text: string, bound: Bound, ordinal: nat, chunks: seq<Chunk>)
    requires Lossless(text, bound, ordinal, chunks) && !AllSpace(Slice(text, bound.start, bound.end))
    ensures chunks != []
  {
    assert Slice(text, bound.start, bound.end) == text[bound.start..bound.end];
  }

  lemma {:induction false} BoundHasText(document: LoadedDocument, starts: seq<nat>, located: seq<Bound>, b: nat)
    requires LoadedBy(document) && |starts| == |document.sections|
    requires FoundBefore(document.text, document.sections, starts, 0, 0, located) && b < |WithContent(located)|
    ensures !AllSpace(Slice(document.text, WithContent(located)[b].start, WithContent(located)[b].end))
  {
    hide LoadedBy, AllSpace;
    var bound := WithContent(located)[b];
    assert bound in WithContent(located);
    var i :| 0 <= i < |located| && located[i] == bound;
    BoundAt(document, starts, located, i);
    SectionHasText(document, i);
  }

  lemma BoundAt(document: LoadedDocument, starts: seq<nat>, located: seq<Bound>, i: nat)
    requires |starts| == |document.sections| && FoundBefore(document.text, document.sections, starts, 0, 0, located) && i < |located|
    ensures |located| == |document.sections|
    ensures located[i].end == located[i].start + |document.sections[i].content|
    ensures Slice(document.text, located[i].start, located[i].end) == document.sections[i].content
  {
    assert BoundFits(document.text, document.sections[0 + i], starts[0 + i], located[i]);
  }

  lemma SectionHasText(document: LoadedDocument, i: nat)
    requires LoadedBy(document) && i < |document.sections| && document.sections[i].content != ""
    ensures !AllSpace(document.sections[i].content)
  {
    hide SpansOf, SectionsOf;
    if document.sections == SectionsOf(Lines(document.text)) {
      SectionsAreRuns(Lines(document.text));
      SectionsOfLines(Lines(document.text));
      assert SpanFits(Lines(document.text), SpansOf(Lines(document.text))[i]);
    }
  }
}
