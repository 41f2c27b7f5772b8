/** What every step of the ingestion keeps. */
module IngestionSafety {
  import opened Outcomes
  import opened Numbering
  import opened DocumentLoader
  import opened Chunking
  import opened IngestionMachine

  // ---- Rows --------------------------------------------------------------------------------

  predicate IsStaged(row: Version) {
    row.rawBytes.Some? && row.contentHash.None? && row.rawText.None?
  }

  predicate IsParsed(row: Version) {
    row.rawBytes.None? && row.rawText.Some? && row.contentHash == row.rawText && IsLoadedText(row.rawText.value)
  }

  /** Every version holds either its staged upload or its parsed text, never both or neither. */
  predicate VersionsFit(db: Db) {
    forall v :: v in db.versions ==> db.versions[v].document in db.documents && (IsStaged(db.versions[v]) || IsParsed(db.versions[v]))
  }

  predicate JobsFit(db: Db) {
    forall j :: j in db.jobs ==> db.jobs[j].version in db.versions && db.versions[db.jobs[j].version].document == db.jobs[j].document
  }

  /** The versions of a document have different numbers, and each but 1 has its predecessor. */
  predicate Numbered(versions: map<Id, Version>) {
    && (forall v :: v in versions ==> versions[v].number >= 1)
    && (forall v, w :: v in versions && w in versions && SameNumber(versions[v], versions[w]) ==> v == w)
    && (forall v :: v in versions && versions[v].number > 1 ==> HasNumber(versions, versions[v].document, versions[v].number - 1))
  }

  predicate SameNumber(row: Version, other: Version) {
    row.document == other.document && row.number == other.number
  }

  predicate HasNumber(versions: map<Id, Version>, d: Id, n: nat) {
    exists v :: v in versions && versions[v].document == d && versions[v].number == n
  }

  /** No job has ever failed as interrupted or for a missing upload. */
  predicate ErrorsFit(jobs: map<Id, Job>) {
    forall j :: j in jobs ==> jobs[j].error in {None, Some(OtherFailure)}
  }

  /** A version that is not parsed yet has at most one job. */
  predicate OneJobWhileStaged(db: Db) {
    forall i, j :: i in db.jobs && j in db.jobs && ShareStaged(db, i, j) ==> i == j
  }

  predicate ShareStaged(db: Db, i: Id, j: Id)
    requires i in db.jobs && j in db.jobs
  {
    && db.jobs[i].version == db.jobs[j].version
    && db.jobs[i].version in db.versions && IsStaged(db.versions[db.jobs[i].version])
  }

  predicate IsVersionOf(db: Db, v: Id, d: Id) {
    d in db.documents && v in db.versions && db.versions[v].document == d
  }

  predicate HasParsed(db: Db, v: Id, text: string) {
    v in db.versions && IsParsed(db.versions[v]) && db.versions[v].rawText.value == text
  }

  /** The chunks of the version are the chunker's, from its stored text. */
  predicate Stored(tools: Tools, db: Db, v: Id)
    requires TailFits(tools)
  {
    && v in db.versions && IsParsed(db.versions[v]) && db.versions[v].document in db.documents
    && v in db.chunks
    && ChunksOf(tools, db.versions[v].rawText.value, db.documents[db.versions[v].document].source) == Ok(db.chunks[v])
  }

  /** Every chunk of the version has its vector point. */
  predicate Pointed(db: Db, v: Id) {
    v in db.chunks && Points(v, db.chunks[v]) <= db.points
  }

  /** The active version of a document is ready to be searched. */
  predicate ActiveFits(tools: Tools, db: Db)
    requires TailFits(tools)
  {
    forall d :: d in db.documents && db.documents[d].active.Some? ==>
      var v := db.documents[d].active.value;
      IsVersionOf(db, v, d) && Stored(tools, db, v) && Pointed(db, v)
  }

  // ---- What a call knows ---------------------------------------------------------------------

  /** The job a call works on. */
  predicate Owns(pc: Pc) {
    pc.MarkRunning? || pc.Enqueue? || pc.ReadRows? || pc.ReloadText? || pc.ReadBytes? || pc.Parse? || pc.Backfill? || IsPipeline(pc)
  }

  function OwnJob(pc: Pc): Id
    requires Owns(pc)
  {
    match pc
    case MarkRunning(work) => work.job
    case Enqueue(j) => j
    case ReadRows(_, _, j) => j
    case ReloadText(work) => work.job
    case ReadBytes(_, _, j) => j
    case Parse(_, _, j, _) => j
    case Backfill(work) => work.job
    case Chunking(work, _) => work.job
    case Replacing(work, _, _) => work.job
    case Upserting(work, _, _) => work.job
    case Activating(work, _) => work.job
    case Failing(_, _, j, _, _) => j
  }

  predicate JobIs(db: Db, j: Id, d: Id, v: Id) {
    j in db.jobs && db.jobs[j].document == d && db.jobs[j].version == v
  }

  /** A job that has just been created is queued but not yet handed over; a job being worked
      on is not queued. */
  predicate OwnFits(db: Db, queue: set<Id>, pc: Pc) {
    && (pc.Claim? ==> pc.job in queue)
    && (Owns(pc) ==>
          && OwnJob(pc) in db.jobs
          && if pc.MarkRunning? || pc.Enqueue? then db.jobs[OwnJob(pc)].status == Queued && OwnJob(pc) !in queue
             else db.jobs[OwnJob(pc)].status != Queued)
  }

  predicate WorkFits(db: Db, work: Work) {
    IsVersionOf(db, work.version, work.document) && JobIs(db, work.job, work.document, work.version)
  }

  predicate ReadyFits(db: Db, work: Work) {
    WorkFits(db, work) && HasParsed(db, work.version, work.text)
  }

  predicate IsCanonical(tools: Tools, db: Db, work: Work, chunks: seq<Chunk>)
    requires TailFits(tools)
  {
    work.document in db.documents && ChunksOf(tools, work.text, db.documents[work.document].source) == Ok(chunks)
  }

  predicate PcFits(tools: Tools, db: Db, pc: Pc)
    requires TailFits(tools)
  {
    match pc
    case LoadNew(_, _) => true
    case CreateDocument(_, text) => IsLoadedText(text)
    case LoadMore(d, _) => d in db.documents
    case CheckText(d, text) => d in db.documents && IsLoadedText(text)
    case CheckTextJob(d, text, _) => d in db.documents && IsLoadedText(text)
    case CreateParsed(d, text) => d in db.documents && IsLoadedText(text)
    case Reuse(d, text, v) => IsVersionOf(db, v, d) && HasParsed(db, v, text)
    case CreateJob(d, v, text) => IsVersionOf(db, v, d) && HasParsed(db, v, text)
    case MarkRunning(work) => ReadyFits(db, work)
    case CheckDocument(_, _, _, _) => true
    case CheckSource(d, _, _) => d in db.documents
    case CheckSourceJob(d, _, _, _) => d in db.documents
    case Validate(_, _) => true
    case QueueDocument(_, _) => true
    case Reserve(d, _) => d in db.documents
    case Adopt(d, v) => IsVersionOf(db, v, d)
    case QueueJob(d, v) => IsVersionOf(db, v, d) && IsStaged(db.versions[v]) && forall j :: j in db.jobs ==> db.jobs[j].version != v
    case Enqueue(_) => true
    case Claim(_) => true
    case ReadRows(d, v, j) => IsVersionOf(db, v, d) && JobIs(db, j, d, v)
    case ReloadText(work) => ReadyFits(db, work)
    case ReadBytes(d, v, j) => IsVersionOf(db, v, d) && JobIs(db, j, d, v) && IsStaged(db.versions[v])
    case Parse(d, v, j, _) => IsVersionOf(db, v, d) && JobIs(db, j, d, v) && IsStaged(db.versions[v])
    case Backfill(work) => WorkFits(db, work) && IsStaged(db.versions[work.version]) && IsLoadedText(work.text)
    case Chunking(work, _) => ReadyFits(db, work)
    case Replacing(work, chunks, _) => ReadyFits(db, work) && IsCanonical(tools, db, work, chunks)
    case Upserting(work, chunks, _) => ReadyFits(db, work) && IsCanonical(tools, db, work, chunks) && Stored(tools, db, work.version)
    case Activating(work, _) => ReadyFits(db, work) && Stored(tools, db, work.version) && Pointed(db, work.version)
    case Failing(d, v, j, error, _) => IsVersionOf(db, v, d) && JobIs(db, j, d, v) && error == OtherFailure
    case Answered(_, _, _) => true
    case Done => true
  }

  // ---- The invariant -----------------------------------------------------------------------------

  /** No two calls work on one job, nor reserve one version. */
  predicate Apart(pc: Pc, other: Pc) {
    && (Owns(pc) && Owns(other) ==> OwnJob(pc) != OwnJob(other))
    && (pc.QueueJob? && other.QueueJob? ==> pc.version != other.version)
  }

  predicate AllApart(threads: map<nat, Pc>) {
    forall t, u :: t in threads && u in threads && t != u ==> Apart(threads[t], threads[u])
  }

  predicate RowsFit(tools: Tools, db: Db)
    requires TailFits(tools)
  {
    VersionsFit(db) && Numbered(db.versions) && JobsFit(db) && ErrorsFit(db.jobs) && OneJobWhileStaged(db) && ActiveFits(tools, db)
  }

  predicate QueueFits(db: Db, queue: set<Id>) {
    forall j :: j in queue ==> j in db.jobs
  }

  predicate ThreadsFit(tools: Tools, db: Db, queue: set<Id>, threads: map<nat, Pc>)
    requires TailFits(tools)
  {
    && (forall t :: t in threads ==> PcFits(tools, db, threads[t]))
    && (forall t :: t in threads ==> OwnFits(db, queue, threads[t]))
  }

  predicate Safe(tools: Tools, p: Process)
    requires TailFits(tools)
  {
    match p case Process(db, queue, threads) =>  // a match: one obligation for a caller that hides the body
    && RowsFit(tools, db)
    && QueueFits(db, queue)
    && ThreadsFit(tools, db, queue, threads)
    && AllApart(threads)
  }

  // ---- What no step undoes --------------------------------------------------------------------------

  /** Documents keep their source type, versions their number and upload hash, parsed ones their text, jobs their version; points
      only appear; stored chunks stay the chunker's. */
  predicate Grows(tools: Tools, db: Db, db': Db)
    requires TailFits(tools)
  {
    && (forall d :: d in db.documents ==> d in db'.documents && db'.documents[d].source == db.documents[d].source)
    && (forall v :: v in db.versions ==>
          v in db'.versions && db'.versions[v].document == db.versions[v].document
          && db'.versions[v].number == db.versions[v].number && db'.versions[v].sourceHash == db.versions[v].sourceHash
          && (IsParsed(db.versions[v]) ==> db'.versions[v] == db.versions[v]))
    && (forall j :: j in db.jobs ==>
          j in db'.jobs && db'.jobs[j].document == db.jobs[j].document && db'.jobs[j].version == db.jobs[j].version)
    && db.points <= db'.points
    && (forall v :: v in db.chunks && Stored(tools, db, v) ==> v in db'.chunks && db'.chunks[v] == db.chunks[v])
  }

  // ---- The writes one by one ------------------------------------------------------------------------

  lemma GrowsReflexive(tools: Tools, db: Db)
    requires TailFits(tools)
    ensures Grows(tools, db, db)
  {
  }

  lemma StoredKept(tools: Tools, db: Db, db': Db, v: Id)
    requires TailFits(tools) && Grows(tools, db, db') && Stored(tools, db, v)
    ensures Stored(tools, db', v)
    ensures Pointed(db, v) ==> Pointed(db', v)
  {
    hide ChunksOf, IsParsed, TailFits;
    assert db'.versions[v] == db.versions[v];
  }

  /** Active versions stay ready, unless a document's active version is changed. */
  lemma ActiveKept(tools: Tools, db: Db, db': Db)
    requires TailFits(tools) && ActiveFits(tools, db) && Grows(tools, db, db')
    requires forall d :: d in db'.documents && db'.documents[d].active.Some? ==> d in db.documents && db.documents[d].active == db'.documents[d].active
    ensures ActiveFits(tools, db')
  {
    hide Stored, Pointed, IsParsed, TailFits;
    forall d | d in db'.documents && db'.documents[d].active.Some?
      ensures var v := db'.documents[d].active.value; IsVersionOf(db', v, d) && Stored(tools, db', v) && Pointed(db', v)
    {
      StoredKept(tools, db, db', db.documents[d].active.value);
    }
  }

  lemma AddDocumentKeeps(tools: Tools, db: Db, d: Id, row: Document)
    requires TailFits(tools) && RowsFit(tools, db) && d !in db.documents && row.active.None?
    ensures var db' := db.(documents := db.documents[d := row]); Grows(tools, db, db') && RowsFit(tools, db')
  {
    hide TailFits, Stored, ActiveFits, IsParsed, IsStaged, Numbered, ErrorsFit;
    var db' := db.(documents := db.documents[d := row]);
    assert Grows(tools, db, db');
    ActiveKept(tools, db, db');
  }

  lemma AddVersionKeeps(tools: Tools, db: Db, v: Id, row: Version)
    requires TailFits(tools) && RowsFit(tools, db) && v !in db.versions && row.document in db.documents && (IsStaged(row) || IsParsed(row))
    requires row.number == NextNumber(db, row.document)
    ensures Grows(tools, db, WithVersion(db, v, row)) && RowsFit(tools, WithVersion(db, v, row))
  {
    hide TailFits, Stored, ActiveFits, IsParsed, IsStaged, Numbered, NextNumber, ErrorsFit;
    var db' := WithVersion(db, v, row);
    assert Grows(tools, db, db');
    NextKeepsNumbered(db, v, row);
    ActiveKept(tools, db, db');
    forall i, j | i in db'.jobs && j in db'.jobs && ShareStaged(db', i, j)
      ensures i == j
    {
      assert ShareStaged(db, i, j);
    }
  }

  lemma NextKeepsNumbered(db: Db, v: Id, row: Version)
    requires Numbered(db.versions) && v !in db.versions && row.number == NextNumber(db, row.document)
    ensures Numbered(db.versions[v := row])
  {
    hide NextNumber, HasNumber;
    var versions' := db.versions[v := row];
    NextIsNew(db, row.document);
    forall w | w in versions' && versions'[w].number > 1
      ensures HasNumber(versions', versions'[w].document, versions'[w].number - 1)
    {
      if w == v {
        var u := GreatestVersion(db, row.document);
        VersionHasNumber(db.versions, u);
      }
      NumberKept(db.versions, v, row, versions'[w].document, versions'[w].number - 1);
    }
    forall u, w | u in versions' && w in versions' && SameNumber(versions'[u], versions'[w])
      ensures u == w
    {
      assert u != v && w != v ==> SameNumber(db.versions[u], db.versions[w]);
    }
  }

  lemma VersionHasNumber(versions: map<Id, Version>, v: Id)
    requires v in versions
    ensures HasNumber(versions, versions[v].document, versions[v].number)
  {
  }

  lemma NumberKept(versions: map<Id, Version>, v: Id, row: Version, d: Id, n: nat)
    requires HasNumber(versions, d, n) && (v !in versions || (row.document == versions[v].document && row.number == versions[v].number))
    ensures HasNumber(versions[v := row], d, n)
  {
    var u :| u in versions && versions[u].document == d && versions[u].number == n;
    assert versions[v := row][u].number == n;
  }

  lemma NextIsNew(db: Db, d: Id)
    ensures NextNumber(db, d) >= 1
    ensures forall w :: w in db.versions && db.versions[w].document == d ==> db.versions[w].number < NextNumber(db, d)
  {
    forall w | w in db.versions && db.versions[w].document == d
      ensures db.versions[w].number < NextNumber(db, d)
    {
      assert db.versions[w].number in VersionNumbers(db, d);
    }
  }

  lemma GreatestVersion(db: Db, d: Id) returns (v: Id)
    requires NextNumber(db, d) > 1
    ensures v in db.versions && db.versions[v].document == d && db.versions[v].number == NextNumber(db, d) - 1
  {
    v :| v in db.versions && db.versions[v].document == d && db.versions[v].number == MaxNumber(VersionNumbers(db, d));
  }

  lemma AddJobKeeps(tools: Tools, db: Db, j: Id, row: Job)
    requires TailFits(tools) && RowsFit(tools, db) && j !in db.jobs && IsVersionOf(db, row.version, row.document) && row.error.None?
    requires IsParsed(db.versions[row.version]) || forall i :: i in db.jobs ==> db.jobs[i].version != row.version
    ensures Grows(tools, db, WithJob(db, j, row)) && RowsFit(tools, WithJob(db, j, row))
  {
    hide TailFits, Stored, ActiveFits, Numbered, OneJobWhileStaged, IsStaged, IsParsed, VersionsFit;
    var db' := WithJob(db, j, row);
    VersionsOnly(db, db');
    assert Grows(tools, db, db');
    ActiveKept(tools, db, db');
    AddedJobIsAlone(db, j, row);
  }

  lemma AddedJobIsAlone(db: Db, j: Id, row: Job)
    requires OneJobWhileStaged(db) && j !in db.jobs && IsVersionOf(db, row.version, row.document)
    requires IsParsed(db.versions[row.version]) || forall i :: i in db.jobs ==> db.jobs[i].version != row.version
    ensures OneJobWhileStaged(WithJob(db, j, row))
  {
    var db' := WithJob(db, j, row);
    forall i, k | i in db'.jobs && k in db'.jobs && ShareStaged(db', i, k)
      ensures i == k
    {
      assert i in db.jobs && k in db.jobs ==> ShareStaged(db, i, k);
    }
  }

  lemma ChangeJobKeeps(tools: Tools, db: Db, j: Id, row: Job)
    requires TailFits(tools) && RowsFit(tools, db) && JobIs(db, j, row.document, row.version)
    requires row.error in {None, Some(OtherFailure)}
    ensures Grows(tools, db, WithJob(db, j, row)) && RowsFit(tools, WithJob(db, j, row))
  {
    hide TailFits, Stored, ActiveFits, IsStaged, IsParsed, Numbered, OneJobWhileStaged, VersionsFit;
    var db' := WithJob(db, j, row);
    VersionsOnly(db, db');
    assert Grows(tools, db, db');
    ActiveKept(tools, db, db');
    ChangedJobIsAlone(db, j, row);
  }

  lemma VersionsOnly(db: Db, db': Db)
    requires VersionsFit(db) && db'.versions == db.versions && db'.documents == db.documents
    ensures VersionsFit(db')
  {
    hide IsStaged, IsParsed;
  }

  lemma ChangedJobIsAlone(db: Db, j: Id, row: Job)
    requires OneJobWhileStaged(db) && JobIs(db, j, row.document, row.version)
    ensures OneJobWhileStaged(WithJob(db, j, row))
  {
    hide IsStaged;
    var db' := WithJob(db, j, row);
    forall i, k | i in db'.jobs && k in db'.jobs && ShareStaged(db', i, k)
      ensures i == k
    {
      assert ShareStaged(db, i, k);
    }
  }

  lemma BackfillKeeps(tools: Tools, db: Db, v: Id, text: string)
    requires TailFits(tools) && RowsFit(tools, db) && v in db.versions && IsStaged(db.versions[v]) && IsLoadedText(text)
    ensures var db' := WithVersion(db, v, db.versions[v].(contentHash := Some(text), rawText := Some(text), rawBytes := None));
            Grows(tools, db, db') && RowsFit(tools, db')
  {
    hide TailFits, ActiveFits, IsLoadedText, Numbered, ErrorsFit;
    NumberedAlike(db.versions, v, db.versions[v].(contentHash := Some(text), rawText := Some(text), rawBytes := None));
    var db' := WithVersion(db, v, db.versions[v].(contentHash := Some(text), rawText := Some(text), rawBytes := None));
    assert Grows(tools, db, db');
    ActiveKept(tools, db, db');
    forall i, j | i in db'.jobs && j in db'.jobs && ShareStaged(db', i, j)
      ensures i == j
    {
      assert ShareStaged(db, i, j);
    }
  }

  lemma NumberedAlike(versions: map<Id, Version>, v: Id, row: Version)
    requires Numbered(versions) && v in versions && row.document == versions[v].document && row.number == versions[v].number
    ensures Numbered(versions[v := row])
  {
    hide HasNumber;
    var versions' := versions[v := row];
    forall w | w in versions' && versions'[w].number > 1
      ensures HasNumber(versions', versions'[w].document, versions'[w].number - 1)
    {
      NumberKept(versions, v, row, versions'[w].document, versions'[w].number - 1);
    }
    forall u, w | u in versions' && w in versions' && SameNumber(versions'[u], versions'[w])
      ensures u == w
    {
      assert SameNumber(versions[u], versions[w]);
    }
  }

  lemma PutChunksKeeps(tools: Tools, db: Db, work: Work, chunks: seq<Chunk>)
    requires TailFits(tools) && RowsFit(tools, db) && ReadyFits(db, work) && IsCanonical(tools, db, work, chunks)
    ensures var db' := db.(chunks := db.chunks[work.version := chunks]);
            Grows(tools, db, db') && RowsFit(tools, db') && Stored(tools, db', work.version)
  {
    hide TailFits, ActiveFits, IsStaged, ChunksOf, IsLoadedText, Numbered, ErrorsFit;
    var db' := db.(chunks := db.chunks[work.version := chunks]);
    assert Stored(tools, db', work.version);
    assert Grows(tools, db, db');
    ActiveKept(tools, db, db');
    forall i, j | i in db'.jobs && j in db'.jobs && ShareStaged(db', i, j)
      ensures i == j
    {
      assert ShareStaged(db, i, j);
    }
  }

  lemma AddPointsKeeps(tools: Tools, db: Db, points: set<Point>)
    requires TailFits(tools) && RowsFit(tools, db)
    ensures var db' := db.(points := db.points + points); Grows(tools, db, db') && RowsFit(tools, db')
  {
    hide TailFits, ActiveFits, IsStaged, IsParsed, Stored, Numbered, ErrorsFit;
    var db' := db.(points := db.points + points);
    assert Grows(tools, db, db');
    ActiveKept(tools, db, db');
    forall i, j | i in db'.jobs && j in db'.jobs && ShareStaged(db', i, j)
      ensures i == j
    {
      assert ShareStaged(db, i, j);
    }
  }

  /** Changing the status of a document, not its active version. */
  lemma ChangeStatusKeeps(tools: Tools, db: Db, d: Id, status: DocumentStatus)
    requires TailFits(tools) && RowsFit(tools, db) && d in db.documents
    ensures var db' := db.(documents := db.documents[d := db.documents[d].(status := status)]); Grows(tools, db, db') && RowsFit(tools, db')
  {
    hide TailFits, ActiveFits, IsStaged, IsParsed, Stored, Numbered, ErrorsFit;
    var db' := db.(documents := db.documents[d := db.documents[d].(status := status)]);
    assert Grows(tools, db, db');
    ActiveKept(tools, db, db');
    forall i, j | i in db'.jobs && j in db'.jobs && ShareStaged(db', i, j)
      ensures i == j
    {
      assert ShareStaged(db, i, j);
    }
  }

  /** Activating a version that is stored and has its points. */
  lemma ActivateKeeps(tools: Tools, db: Db, d: Id, v: Id)
    requires TailFits(tools) && RowsFit(tools, db) && IsVersionOf(db, v, d) && Stored(tools, db, v) && Pointed(db, v)
    ensures var db' := db.(documents := db.documents[d := db.documents[d].(status := Active, active := Some(v))]);
            Grows(tools, db, db') && RowsFit(tools, db')
  {
    hide TailFits, IsStaged, IsParsed, Stored, Pointed, Numbered, ErrorsFit;
    var db' := db.(documents := db.documents[d := db.documents[d].(status := Active, active := Some(v))]);
    assert Grows(tools, db, db');
    forall i, j | i in db'.jobs && j in db'.jobs && ShareStaged(db', i, j)
      ensures i == j
    {
      assert ShareStaged(db, i, j);
    }
    forall e | e in db'.documents && db'.documents[e].active.Some?
      ensures var w := db'.documents[e].active.value; IsVersionOf(db', w, e) && Stored(tools, db', w) && Pointed(db', w)
    {
      StoredKept(tools, db, db', if e == d then v else db.documents[e].active.value);
    }
  }
}
