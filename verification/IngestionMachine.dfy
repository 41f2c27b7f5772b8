/** Knowledge ingestion: uploads handled in the request or queued for the worker, any number
    of them at once, each a sequence of store transactions and outside calls between which
    anything may happen, with failures at every step and crashes of the process. */
module IngestionMachine {
  import opened Outcomes
  import opened Numbering
  import opened Text
  import opened DocumentLoader
  import opened Chunking
  import Headings

  type Id = nat

  datatype DocumentStatus = Processing | Active | Disabled | FailedDocument

  datatype Document = Document(source: SourceType, status: DocumentStatus, active: Option<Id>)

  /** A version row.  The hash columns are hashes of the upload and of the text; hashes are
      taken to be free of collisions, so they are what they hash. */
  datatype Version = Version(
    document: Id, number: nat, sourceHash: Option<Bytes>, rawBytes: Option<Bytes>, contentHash: Option<string>, rawText: Option<string>)

  datatype JobStatus = Queued | Running | Succeeded | FailedJob

  datatype FailureCode = Interrupted | SourceMissing | OtherFailure

  datatype Job = Job(document: Id, version: Id, status: JobStatus, attempts: nat, error: Option<FailureCode>)

  /** A vector point; its identifier is that of the chunk. */
  datatype Point = Point(version: Id, ordinal: nat)

  datatype Db = Db(
    documents: map<Id, Document>, versions: map<Id, Version>, jobs: map<Id, Job>, chunks: map<Id, seq<Chunk>>, points: set<Point>)

  // ---- Reads -------------------------------------------------------------------------------

  function VersionNumbers(db: Db, d: Id): set<nat> {
    set v | v in db.versions && db.versions[v].document == d :: db.versions[v].number
  }

  /** _next_version_no */
  ghost function NextNumber(db: Db, d: Id): nat {
    MaxNumber(VersionNumbers(db, d)) + 1
  }

  predicate HasSource(db: Db, v: Id, d: Id, content: Bytes)
    requires v in db.versions
  {
    db.versions[v].document == d && db.versions[v].sourceHash == Some(content)
  }

  predicate HasText(db: Db, v: Id, d: Id, text: string)
    requires v in db.versions
  {
    db.versions[v].document == d && db.versions[v].contentHash == Some(text)
  }

  /** What the document of a text and a source type is. */
  function DocumentOf(text: string, source: SourceType): LoadedDocument {
    LoadedDocument(text, if source.PlainText? then [Section(None, text)] else SectionsOf(Headings.Lines(text)))
  }

  /** The chunks the chunker makes of a text. */
  function ChunksOf(tools: Tools, text: string, source: SourceType): Outcome<seq<Chunk>, ChunkError>
    requires TailFits(tools)
  {
    SplitDocument(DocumentOf(text, source), tools)
  }

  /** bytes.strip() is empty */
  predicate BlankBytes(content: Bytes) {
    content.Utf8? && forall c :: c in content.text ==> c in " \t\n\r\U{000b}\U{000c}"
  }

  /** _validate_upload */
  predicate ValidUpload(content: Bytes, source: SourceType) {
    && content.Size() <= MAX_DOCUMENT_BYTES
    && if IsExtracted(source) then !BlankBytes(content) else content.Utf8? && !AllSpace(content.text)
  }

  // ---- The program of one call ----------------------------------------------------------------

  /** What the pipeline works on. */
  datatype Work = Work(document: Id, version: Id, job: Id, text: string)

  datatype Pc =
    // synchronous upload
    | LoadNew(source: SourceType, content: Bytes)
    | CreateDocument(source: SourceType, text: string)
    | LoadMore(document: Id, content: Bytes)
    | CheckText(document: Id, text: string)
    | CheckTextJob(document: Id, text: string, existing: Id)
    | CreateParsed(document: Id, text: string)
    | Reuse(document: Id, text: string, existing: Id)
    | CreateJob(document: Id, version: Id, text: string)
    | MarkRunning(work: Work)
    // both kinds of upload of a further version
    | CheckDocument(document: Id, source: SourceType, content: Bytes, queued: bool)
    | CheckSource(document: Id, content: Bytes, queued: bool)
    | CheckSourceJob(document: Id, content: Bytes, queued: bool, existing: Id)
    // queued upload
    | Validate(source: SourceType, content: Bytes)
    | QueueDocument(source: SourceType, content: Bytes)
    | Reserve(document: Id, content: Bytes)
    | Adopt(document: Id, existing: Id)
    | QueueJob(document: Id, version: Id)
    | Enqueue(job: Id)
    // the worker
    | Claim(job: Id)
    | ReadRows(document: Id, version: Id, job: Id)
    | ReloadText(work: Work)
    | ReadBytes(document: Id, version: Id, job: Id)
    | Parse(document: Id, version: Id, job: Id, content: Bytes)
    | Backfill(work: Work)
    // the pipeline
    | Chunking(work: Work, byWorker: bool)
    | Replacing(work: Work, chunks: seq<Chunk>, byWorker: bool)
    | Upserting(work: Work, chunks: seq<Chunk>, byWorker: bool)
    | Activating(work: Work, byWorker: bool)
    | Failing(document: Id, version: Id, job: Id, error: FailureCode, again: bool)
    // over: with the receipt of an upload that started no pipeline of its own, or otherwise
    | Answered(version: Id, latest: Option<Id>, deduplicated: bool)
    | Done

  /** What the program does not choose: fresh identifiers, the answer of the parsing service,
      which of the newest jobs of a version is taken for the latest, how many points of a
      batch are written, and whether a step raises before or after its effect. */
  datatype Luck = Luck(id: Id, parser: Option<Parser>, latest: Option<Id>, written: set<Point>, before: bool, after: bool)

  datatype State = State(db: Db, queue: set<Id>, pc: Pc)

  /** Raising inside the pipeline: run_job records the failure a second time. */
  function Raised(work: Work, byWorker: bool): Pc {
    Failing(work.document, work.version, work.job, OtherFailure, byWorker)
  }

  /** A pipeline step: it raises before its effect, after it, or not at all. */
  function PipelineStep(s: State, effect: Db, next: Pc, work: Work, byWorker: bool, luck: Luck): State {
    if luck.before then s.(pc := Raised(work, byWorker))
    else State(effect, s.queue, if luck.after then Raised(work, byWorker) else next)
  }

  /** The newest job of a version, if it has one. */
  predicate IsLatest(db: Db, v: Id, latest: Option<Id>) {
    match latest
    case None => forall j :: j in db.jobs ==> db.jobs[j].version != v
    case Some(j) => j in db.jobs && db.jobs[j].version == v
  }

  predicate LatestSucceeded(db: Db, latest: Option<Id>) {
    latest.Some? && latest.value in db.jobs && db.jobs[latest.value].status == Succeeded
  }

  predicate LatestFailed(db: Db, latest: Option<Id>) {
    latest.Some? && latest.value in db.jobs && db.jobs[latest.value].status == FailedJob
  }

  function WithVersion(db: Db, v: Id, row: Version): Db {
    db.(versions := db.versions[v := row])
  }

  function WithJob(db: Db, j: Id, row: Job): Db {
    db.(jobs := db.jobs[j := row])
  }

  function Points(v: Id, chunks: seq<Chunk>): set<Point> {
    set i | 0 <= i < |chunks| :: Point(v, chunks[i].ordinal)
  }

  /** fail_ingestion */
  function Failed(db: Db, d: Id, j: Id, error: FailureCode): Db
    requires d in db.documents
  {
    db.(jobs := if j in db.jobs then db.jobs[j := db.jobs[j].(status := FailedJob, error := Some(error))] else db.jobs,
        documents := db.documents[d := FailedDocumentRow(db.documents[d])])
  }

  function FailedDocumentRow(row: Document): Document {
    if row.active.None? then row.(status := FailedDocument) else row
  }

  /** One step of an upload in the request. */
  ghost function UploadStep(s: State, luck: Luck): State {
    var db := s.db;
    match s.pc
    case LoadNew(source, content) => (
      match Load(content, source, luck.parser)
      case Ok(loaded) => s.(pc := CreateDocument(source, loaded.text))
      case Err(_) => s.(pc := Done))
    case CreateDocument(source, text) =>
      if luck.id in db.documents then s.(pc := Done)
      else State(db.(documents := db.documents[luck.id := Document(source, Processing, None)]), s.queue, CreateParsed(luck.id, text))
    case CheckDocument(d, source, content, queued) =>
      if d !in db.documents || db.documents[d].source != source || (queued && !ValidUpload(content, source)) then s.(pc := Done)
      else s.(pc := CheckSource(d, content, queued))
    case CheckSource(d, content, queued) =>
      if v :| v in db.versions && HasSource(db, v, d, content) then s.(pc := CheckSourceJob(d, content, queued, v))
      else s.(pc := if queued then Reserve(d, content) else LoadMore(d, content))
    case CheckSourceJob(d, content, queued, existing) =>
      if !IsLatest(db, existing, luck.latest) then s
      else if !LatestFailed(db, luck.latest) then s.(pc := Answered(existing, luck.latest, true))
      else s.(pc := if queued then Reserve(d, content) else LoadMore(d, content))
    case _ => s
  }

  function ParsedRow(d: Id, number: nat, text: string): Version {
    Version(d, number, None, None, Some(text), Some(text))
  }

  function StagedRow(d: Id, number: nat, content: Bytes): Version {
    Version(d, number, Some(content), Some(content), None, None)
  }

  /** One step from a text to a running job, or from an upload to a queued one. */
  ghost function ReservationStep(s: State, luck: Luck): State {
    var db := s.db;
    match s.pc
    case LoadMore(d, content) =>
      if d !in db.documents then s.(pc := Done)
      else (
        match Load(content, db.documents[d].source, luck.parser)
        case Ok(loaded) => s.(pc := CheckText(d, loaded.text))
        case Err(_) => s.(pc := Done))
    case CheckText(d, text) =>
      if v :| v in db.versions && HasText(db, v, d, text) then s.(pc := CheckTextJob(d, text, v)) else s.(pc := CreateParsed(d, text))
    case CheckTextJob(d, text, existing) =>
      if !IsLatest(db, existing, luck.latest) then s
      else s.(pc := if LatestSucceeded(db, luck.latest) then Answered(existing, luck.latest, true) else CreateParsed(d, text))
    case CreateParsed(d, text) =>
      if v :| v in db.versions && HasText(db, v, d, text) then s.(pc := Reuse(d, text, v))
      else if luck.id in db.versions || d !in db.documents then s.(pc := Done)
      else State(WithVersion(db, luck.id, ParsedRow(d, NextNumber(db, d), text)), s.queue, CreateJob(d, luck.id, text))
    case Reuse(d, text, existing) =>
      if !IsLatest(db, existing, luck.latest) then s
      else s.(pc := if LatestSucceeded(db, luck.latest) then Answered(existing, luck.latest, true) else CreateJob(d, existing, text))
    case CreateJob(d, v, text) =>
      if luck.id in db.jobs then s.(pc := Done)
      else State(WithJob(db, luck.id, Job(d, v, Queued, 0, None)), s.queue, MarkRunning(Work(d, v, luck.id, text)))
    case MarkRunning(work) =>
      if work.job !in db.jobs then s.(pc := Done)
      else
        var job := db.jobs[work.job];
        State(WithJob(db, work.job, job.(status := Running, attempts := job.attempts + 1)), s.queue, Chunking(work, false))
    case Validate(source, content) => s.(pc := if ValidUpload(content, source) then QueueDocument(source, content) else Done)
    case QueueDocument(source, content) =>
      if luck.id in db.documents then s.(pc := Done)
      else State(db.(documents := db.documents[luck.id := Document(source, Processing, None)]), s.queue, Reserve(luck.id, content))
    case Reserve(d, content) =>
      if v :| v in db.versions && HasSource(db, v, d, content) then s.(pc := Adopt(d, v))
      else if luck.id in db.versions || d !in db.documents then s.(pc := Done)
      else State(WithVersion(db, luck.id, StagedRow(d, NextNumber(db, d), content)), s.queue, QueueJob(d, luck.id))
    case Adopt(d, existing) =>
      if !IsLatest(db, existing, luck.latest) then s else s.(pc := Answered(existing, luck.latest, true))
    case QueueJob(d, v) =>
      if luck.id in db.jobs then s.(pc := Done)
      else State(WithJob(db, luck.id, Job(d, v, Queued, 0, None)), s.queue, Enqueue(luck.id))
    case Enqueue(j) =>
      // the bounded queue may be full: the call raises, and the job stays queued in its row
      if luck.before || j !in db.jobs then s.(pc := Done) else State(db, s.queue + {j}, Answered(db.jobs[j].version, Some(j), false))
    case _ => s
  }

  /** One step of the worker before the pipeline. */
  ghost function WorkerStep(s: State, luck: Luck): State {
    var db := s.db;
    match s.pc
    case Claim(j) =>
      if j !in db.jobs || db.jobs[j].status != Queued then s.(pc := Done)
      else
        var job := db.jobs[j];
        State(WithJob(db, j, job.(status := Running, attempts := job.attempts + 1)), s.queue, ReadRows(job.document, job.version, j))
    case ReadRows(d, v, j) =>
      if v !in db.versions || d !in db.documents then s.(pc := Done)
      else if db.versions[v].contentHash.Some? && db.versions[v].rawText.Some? then s.(pc := ReloadText(Work(d, v, j, db.versions[v].rawText.value)))
      else s.(pc := ReadBytes(d, v, j))
    case ReloadText(work) =>
      if work.document !in db.documents then s.(pc := Done)
      else (
        match Reload(work.text, db.documents[work.document].source)
        case Ok(loaded) => s.(pc := Chunking(work.(text := loaded.text), true))
        case Err(_) => s.(pc := Failing(work.document, work.version, work.job, OtherFailure, false)))
    case ReadBytes(d, v, j) =>
      if v !in db.versions || db.versions[v].rawBytes.None? then s.(pc := Failing(d, v, j, SourceMissing, false))
      else s.(pc := Parse(d, v, j, db.versions[v].rawBytes.value))
    case Parse(d, v, j, content) =>
      if d !in db.documents then s.(pc := Done)
      else (
        match Load(content, db.documents[d].source, luck.parser)
        case Ok(loaded) => s.(pc := Backfill(Work(d, v, j, loaded.text)))
        case Err(_) => s.(pc := Failing(d, v, j, OtherFailure, false)))
    case Backfill(work) =>
      if luck.before || work.version !in db.versions || TextTaken(db, work) then s.(pc := Failing(work.document, work.version, work.job, OtherFailure, false))
      else
        var row := db.versions[work.version].(contentHash := Some(work.text), rawText := Some(work.text), rawBytes := None);
        State(WithVersion(db, work.version, row), s.queue,
              if luck.after then Failing(work.document, work.version, work.job, OtherFailure, false) else Chunking(work, true))
    case _ => s
  }

  /** The unique text per document that record_version_content runs into. */
  predicate TextTaken(db: Db, work: Work) {
    exists v :: v in db.versions && v != work.version && HasText(db, v, work.document, work.text)
  }

  /** One step of the pipeline: split and embed, store the chunks, write the points, activate. */
  ghost function ChunkStep(tools: Tools, s: State, luck: Luck): State
    requires TailFits(tools)
  {
    var db := s.db;
    match s.pc
    case Chunking(work, byWorker) =>
      if work.document !in db.documents then s.(pc := Done)
      else (
        match ChunksOf(tools, work.text, db.documents[work.document].source)
        case Ok(chunks) => PipelineStep(s, db, Replacing(work, chunks, byWorker), work, byWorker, luck)
        case Err(_) => s.(pc := Raised(work, byWorker)))
    case Replacing(work, chunks, byWorker) =>
      PipelineStep(s, db.(chunks := db.chunks[work.version := chunks]), Upserting(work, chunks, byWorker), work, byWorker, luck)
    case Upserting(work, chunks, byWorker) =>
      // a failing batch may have written any of its points, a finished one has written all
      var batch := Points(work.version, chunks);
      var written := if luck.before then batch * luck.written else batch;
      State(db.(points := db.points + written), s.queue,
            if luck.before || luck.after then Raised(work, byWorker) else Activating(work, byWorker))
    case Activating(work, byWorker) =>
      if luck.before || work.document !in db.documents || work.job !in db.jobs || db.jobs[work.job].version != work.version
         || work.version !in db.versions || db.versions[work.version].document != work.document then
        s.(pc := Raised(work, byWorker))
      else
        var activated := db.(
          documents := db.documents[work.document := db.documents[work.document].(status := Active, active := Some(work.version))],
          jobs := db.jobs[work.job := db.jobs[work.job].(status := Succeeded, error := None)]);
        State(activated, s.queue, if luck.after then Raised(work, byWorker) else Done)
    case Failing(d, v, j, error, again) =>
      var next := if again then Failing(d, v, j, error, false) else Done;
      if luck.before || d !in db.documents then s.(pc := next) else State(Failed(db, d, j, error), s.queue, next)
    case _ => s
  }

  predicate IsUpload(pc: Pc) {
    pc.LoadNew? || pc.CreateDocument? || pc.CheckDocument? || pc.CheckSource? || pc.CheckSourceJob?
  }

  predicate IsPipeline(pc: Pc) {
    pc.Chunking? || pc.Replacing? || pc.Upserting? || pc.Activating? || pc.Failing?
  }

  predicate IsWorker(pc: Pc) {
    pc.Claim? || pc.ReadRows? || pc.ReloadText? || pc.ReadBytes? || pc.Parse? || pc.Backfill?
  }

  ghost function CallStep(tools: Tools, s: State, luck: Luck): State
    requires TailFits(tools)
  {
    if IsUpload(s.pc) then UploadStep(s, luck)
    else if IsPipeline(s.pc) then ChunkStep(tools, s, luck)
    else if IsWorker(s.pc) then WorkerStep(s, luck)
    else ReservationStep(s, luck)
  }

  // ---- The process --------------------------------------------------------------------------------

  /** The database, the in-memory queue of the worker, and the calls under way. */
  datatype Process = Process(db: Db, queue: set<Id>, threads: map<nat, Pc>)

  datatype Event =
    | Upload(thread: nat, source: SourceType, content: Bytes, queued: bool)
    | UploadVersion(thread: nat, document: Id, source: SourceType, content: Bytes, queued: bool)
    | RunJob(thread: nat, job: Id)                 // the worker takes a queued job, perhaps again
    | Go(thread: nat, luck: Luck)
    | Vanish(thread: nat)                          // an interrupt that no handler sees
    | SetStatus(document: Id, status: DocumentStatus)
    | Crash
    | Recover(accepted: set<Id>)                   // at start-up; the queue may refuse some

  /** recover_stale_jobs */
  predicate IsStale(job: Job) {
    job.status == Queued || job.status == Running
  }

  predicate IsRecoverable(db: Db, job: Job) {
    job.version in db.versions && (db.versions[job.version].contentHash.Some? || db.versions[job.version].rawBytes.Some?)
  }

  function RecoveredJob(db: Db, job: Job): Job {
    if !IsStale(job) then job
    else if job.status == Queued || IsRecoverable(db, job) then job.(status := Queued)
    else job.(status := FailedJob, error := Some(Interrupted))
  }

  predicate HasInterruptedJob(db: Db, d: Id) {
    exists j :: j in db.jobs && db.jobs[j].document == d && IsStale(db.jobs[j]) && RecoveredJob(db, db.jobs[j]).status == FailedJob
  }

  function Recovered(db: Db): Db {
    db.(jobs := map j | j in db.jobs :: RecoveredJob(db, db.jobs[j]),
        documents := map d | d in db.documents :: if HasInterruptedJob(db, d) then FailedDocumentRow(db.documents[d]) else db.documents[d])
  }

  function Requeued(db: Db): set<Id> {
    set j | j in db.jobs && IsStale(db.jobs[j]) && RecoveredJob(db, db.jobs[j]).status == Queued
  }

  ghost function Next(tools: Tools, p: Process, event: Event): Process
    requires TailFits(tools)
  {
    match event
    case Upload(t, source, content, queued) =>
      if t in p.threads then p
      else p.(threads := p.threads[t := if queued then Validate(source, content) else LoadNew(source, content)])
    case UploadVersion(t, d, source, content, queued) =>
      if t in p.threads then p else p.(threads := p.threads[t := CheckDocument(d, source, content, queued)])
    case RunJob(t, j) =>
      if t in p.threads || j !in p.queue then p else p.(threads := p.threads[t := Claim(j)])
    case Go(t, luck) =>
      if t !in p.threads then p
      else
        var s := CallStep(tools, State(p.db, p.queue, p.threads[t]), luck);
        Process(s.db, s.queue, p.threads[t := s.pc])
    case Vanish(t) => if t in p.threads then p.(threads := p.threads[t := Done]) else p
    case SetStatus(d, status) =>
      if d !in p.db.documents then p
      else p.(db := p.db.(documents := p.db.documents[d := p.db.documents[d].(status := status)]))
    case Crash => Process(p.db, {}, map[])
    case Recover(accepted) =>
      if p.threads == map[] then Process(Recovered(p.db), p.queue + accepted * Requeued(p.db), map[]) else p
  }

  ghost function Play(tools: Tools, p: Process, events: seq<Event>): Process
    requires TailFits(tools)
  {
    if events == [] then p else Next(tools, Play(tools, p, events[..|events| - 1]), events[|events| - 1])
  }

  /** Nothing ingested yet. */
  const EMPTY := Process(Db(map[], map[], map[], map[], {}), {}, map[])

  ghost predicate Reachable(tools: Tools, p: Process)
    requires TailFits(tools)
  {
    exists events :: p == Play(tools, EMPTY, events)
  }
}
