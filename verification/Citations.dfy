/** Citations: from the identifiers the vector search returns, through the rows of active
    versions, to the text that is quoted. */
module Citations {
  import opened Outcomes
  import opened Chunking
  import opened LosslessChunking
  import opened IngestionMachine
  import opened IngestionTheorems
  import CitationNumbers

  /** A chunk joined to its document. */
  datatype Row = Row(document: Id, version: Id, chunk: Chunk)

  function IdOf(row: Row): Point {
    Point(row.version, row.chunk.ordinal)
  }

  /** The join: the document of the chunk is active, with the version of the chunk. */
  predicate Joins(db: Db, row: Row) {
    && row.version in db.chunks && row.chunk in db.chunks[row.version]
    && row.version in db.versions && db.versions[row.version].document == row.document
    && row.document in db.documents
    && db.documents[row.document].status == Active && db.documents[row.document].active == Some(row.version)
  }

  /** resolve_active_citations: the joined rows with these identifiers, in any order. */
  ghost predicate Resolves(db: Db, ids: seq<Point>, rows: seq<Row>) {
    && (forall row :: row in rows <==> Joins(db, row) && IdOf(row) in ids)
    && (forall i, j :: 0 <= i < j < |rows| ==> rows[i] != rows[j])
  }

  datatype Citation = Citation(
    id: string, document: Id, version: Id, chunk: Point, path: Option<string>, content: string, start: nat, end: nat)

  /** _build_citations */
  function BuildCitations(selected: seq<Row>): (citations: seq<Citation>)
    ensures |citations| == |selected|
  {
    seq(|selected|, i requires 0 <= i < |selected| =>
      var row := selected[i];
      Citation(CitationNumbers.CitationId(i + 1), row.document, row.version, IdOf(row), row.chunk.path, row.chunk.content, row.chunk.start, row.chunk.end))
  }

  lemma JoinedIsCitable(db: Db, row: Row) returns (i: nat)
    requires Joins(db, row)
    ensures IsCitable(db, row.version, i) && db.chunks[row.version][i] == row.chunk
  {
    assert row.document in db.documents && db.documents[row.document].active.value == row.version;
    i :| 0 <= i < |db.chunks[row.version]| && db.chunks[row.version][i] == row.chunk;
  }

  lemma CitableIsJoined(tools: Tools, p: Process, v: Id, i: nat) returns (row: Row)
    requires TailFits(tools) && SplitterFits(tools) && Reachable(tools, p) && IsCitable(p.db, v, i)
    ensures Joins(p.db, row) && IdOf(row) == Point(v, i) && row.chunk == p.db.chunks[v][i]
  {
    hide TailFits, SplitterFits, Reachable;
    var d :| d in p.db.documents && p.db.documents[d].status == Active && p.db.documents[d].active == Some(v);
    ActiveIsComplete(tools, p, d);
    CitationsQuoteTheText(tools, p, v, i);
    row := Row(d, v, p.db.chunks[v][i]);
  }

  /** In every reachable state a candidate is resolved exactly if it names a chunk of a version
      that is active then, and only to one row. */
  lemma ResolvedIff(tools: Tools, p: Process, ids: seq<Point>, rows: seq<Row>, id: Point)
    requires TailFits(tools) && SplitterFits(tools) && Reachable(tools, p) && Resolves(p.db, ids, rows) && id in ids
    ensures (exists k :: 0 <= k < |rows| && IdOf(rows[k]) == id) <==> IsCitable(p.db, id.version, id.ordinal)
    ensures forall k, l :: 0 <= k < |rows| && 0 <= l < |rows| && IdOf(rows[k]) == id && IdOf(rows[l]) == id ==> k == l
  {
    hide TailFits, SplitterFits, Reachable, Joins, IsCitable;
    if IsCitable(p.db, id.version, id.ordinal) {
      var row := CitableIsJoined(tools, p, id.version, id.ordinal);
      assert row in rows;
    }
    forall k | 0 <= k < |rows| && IdOf(rows[k]) == id
      ensures IsCitable(p.db, id.version, id.ordinal)
      ensures forall l :: 0 <= l < |rows| && IdOf(rows[l]) == id ==> k == l
    {
      RowIsChunk(tools, p, rows[k]);
      forall l | 0 <= l < |rows| && IdOf(rows[l]) == id
        ensures k == l
      {
        RowIsChunk(tools, p, rows[l]);
        SameRow(p.db, rows[k], rows[l]);
      }
    }
  }

  lemma RowIsChunk(tools: Tools, p: Process, row: Row)
    requires TailFits(tools) && SplitterFits(tools) && Reachable(tools, p) && Joins(p.db, row)
    ensures IsCitable(p.db, row.version, row.chunk.ordinal)
    ensures row.version in p.db.chunks && row.chunk.ordinal < |p.db.chunks[row.version]|
    ensures p.db.chunks[row.version][row.chunk.ordinal] == row.chunk
  {
    hide TailFits, SplitterFits, Reachable, Joins;
    var i := JoinedIsCitable(p.db, row);
    CitationsQuoteTheText(tools, p, row.version, i);
  }

  lemma SameRow(db: Db, row: Row, other: Row)
    requires Joins(db, row) && Joins(db, other) && IdOf(row) == IdOf(other)
    requires row.chunk.ordinal < |db.chunks[row.version]| && db.chunks[row.version][row.chunk.ordinal] == row.chunk
    requires db.chunks[row.version][row.chunk.ordinal] == other.chunk
    ensures row == other
  {
  }

  /** What a citation says of the stored text. */
  predicate Quotes(db: Db, citation: Citation) {
    && citation.version in db.versions && db.versions[citation.version].rawText.Some?
    && var text := db.versions[citation.version].rawText.value;
    && citation.start < citation.end <= |text|
    && citation.content == text[citation.start..citation.end]
  }

  /** The citation names a stored chunk, with its path and its document. */
  predicate IsCitationOf(db: Db, citation: Citation) {
    && citation.version == citation.chunk.version && citation.version in db.chunks
    && citation.version in db.versions && citation.document == db.versions[citation.version].document
    && citation.chunk.ordinal < |db.chunks[citation.version]|
    && var chunk := db.chunks[citation.version][citation.chunk.ordinal];
    citation.path == chunk.path && citation.content == chunk.content && citation.start == chunk.start && citation.end == chunk.end
  }

  lemma CitationNames(db: Db, selected: seq<Row>, i: nat, k: nat)
    requires i < |selected| && Joins(db, selected[i]) && k < |db.chunks[selected[i].version]|
    requires db.chunks[selected[i].version][k] == selected[i].chunk && selected[i].chunk.ordinal == k
    ensures IsCitationOf(db, BuildCitations(selected)[i])
  {
  }

  /** The citations of a search, numbered from C1, quote versions that were active when the
      candidates were resolved, and go on quoting them whatever is uploaded, activated,
      interrupted or restarted afterwards. */
  lemma {:induction false} CitationsStayTrue(tools: Tools, p: Process, ids: seq<Point>, rows: seq<Row>, selected: seq<Row>, events: seq<Event>, i: nat)
    requires TailFits(tools) && SplitterFits(tools) && Reachable(tools, p) && Resolves(p.db, ids, rows)
    requires (forall row :: row in selected ==> row in rows) && i < |selected|
    ensures var citation := BuildCitations(selected)[i];
            && citation.id == CitationNumbers.CitationId(i + 1)
            && citation.chunk in ids && citation.version in ActiveVersions(p.db)
            && IsCitationOf(p.db, citation)
            && Quotes(p.db, citation) && Quotes(Play(tools, p, events).db, citation)
    ensures forall j :: 0 <= j < |selected| && BuildCitations(selected)[j].id == BuildCitations(selected)[i].id ==> j == i
  {
    hide TailFits, SplitterFits, Reachable, Joins, Play, ActiveVersions;
    var row := selected[i];
    assert row in rows;
    var k := JoinedIsCitable(p.db, row);
    CitationsQuoteTheText(tools, p, row.version, k);
    CitationNames(p.db, selected, i, k);
    TextNeverChanges(tools, p, events, row.version);
    forall j | 0 <= j < |selected| && BuildCitations(selected)[j].id == BuildCitations(selected)[i].id
      ensures j == i
    {
      assert CitationNumbers.CitationId(j + 1)[1..] == CitationNumbers.CitationId(i + 1)[1..];
      CitationNumbers.DecimalInjective(j + 1, i + 1);
    }
  }
}
