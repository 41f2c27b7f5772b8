/** Every step of a call keeps the rows fit, and leaves alone what other calls rely on. */
module IngestionSteps {
  import opened Outcomes
  import opened DocumentLoader
  import opened Chunking
  import opened IngestionMachine
  import opened IngestionSafety

  predicate Touches(pc: Pc, j: Id) {
    (Owns(pc) && OwnJob(pc) == j) || (pc.Claim? && pc.job == j)
  }

  /** A step changes its own job, parses its own version, and creates jobs and queue entries
      of its own. */
  predicate LeavesOthers(db: Db, queue: set<Id>, pc: Pc, db': Db, queue': set<Id>) {
    && (forall j :: j in db.jobs && !Touches(pc, j) ==> j in db'.jobs && db'.jobs[j] == db.jobs[j])
    && (forall v :: v in db.versions && IsStaged(db.versions[v]) && !(pc.Backfill? && pc.work.version == v) ==>
          v in db'.versions && db'.versions[v] == db.versions[v])
    && (forall j :: j in db'.jobs && j !in db.jobs ==>
          (pc.CreateJob? && db'.jobs[j].version == pc.version) || (pc.QueueJob? && db'.jobs[j].version == pc.version))
    && queue <= queue'
    && (forall j :: j in queue' && j !in queue ==> pc.Enqueue? && pc.job == j)
  }

  /** Where a step takes a call: to the job it had, a queued one it claims, or a new one. */
  predicate MovesOn(db: Db, pc: Pc, pc': Pc) {
    && (Owns(pc') ==>
          || (Owns(pc) && OwnJob(pc') == OwnJob(pc))
          || (pc.Claim? && OwnJob(pc') == pc.job && pc.job in db.jobs && db.jobs[pc.job].status == Queued)
          || OwnJob(pc') !in db.jobs)
    && (pc'.QueueJob? ==> pc'.version !in db.versions)
    && !pc'.Claim?
  }

  predicate StepFits(tools: Tools, s: State, s': State)
    requires TailFits(tools)
  {
    && Grows(tools, s.db, s'.db) && RowsFit(tools, s'.db) && QueueFits(s'.db, s'.queue)
    && PcFits(tools, s'.db, s'.pc) && OwnFits(s'.db, s'.queue, s'.pc)
    && LeavesOthers(s.db, s.queue, s.pc, s'.db, s'.queue)
    && MovesOn(s.db, s.pc, s'.pc)
  }

  predicate StateFits(tools: Tools, s: State)
    requires TailFits(tools)
  {
    RowsFit(tools, s.db) && QueueFits(s.db, s.queue) && PcFits(tools, s.db, s.pc) && OwnFits(s.db, s.queue, s.pc)
  }

  // ---- Steps that write nothing ----------------------------------------------------------------

  lemma OnlyMoves(tools: Tools, s: State, pc': Pc)
    requires TailFits(tools) && StateFits(tools, s) && PcFits(tools, s.db, pc') && OwnFits(s.db, s.queue, pc')
    requires MovesOn(s.db, s.pc, pc')
    ensures StepFits(tools, s, s.(pc := pc'))
  {
    hide TailFits, RowsFit, PcFits, OwnFits, Grows, MovesOn, IsStaged;
    GrowsReflexive(tools, s.db);
  }

  lemma UploadFits(tools: Tools, s: State, luck: Luck)
    requires TailFits(tools) && StateFits(tools, s) && IsUpload(s.pc)
    ensures StepFits(tools, s, UploadStep(s, luck))
  {
    hide TailFits, RowsFit, Load, HasSource, StepFits;
    var s' := UploadStep(s, luck);
    match s.pc
    case LoadNew(source, content) =>
      if Load(content, source, luck.parser).Ok? {
        LoadedHasText(content, source, luck.parser);
      }
      OnlyMoves(tools, s, s'.pc);
    case CreateDocument(source, text) =>
      if luck.id in s.db.documents {
        OnlyMoves(tools, s, Done);
      } else {
        NewDocumentFits(tools, s, luck.id, source, s'.pc);
      }
    case _ =>
      if s' == s {
        StaysPut(tools, s);
      } else {
        OnlyMoves(tools, s, s'.pc);
      }
  }

  lemma StaysPut(tools: Tools, s: State)
    requires TailFits(tools) && StateFits(tools, s) && !s.pc.QueueJob? && !s.pc.Claim?
    ensures StepFits(tools, s, s)
  {
    hide TailFits, RowsFit, PcFits;
    GrowsReflexive(tools, s.db);
  }

  lemma NewDocumentFits(tools: Tools, s: State, d: Id, source: SourceType, pc': Pc)
    requires TailFits(tools) && StateFits(tools, s) && d !in s.db.documents
    requires !Owns(pc') && !pc'.QueueJob? && !pc'.Claim?
    requires var db' := s.db.(documents := s.db.documents[d := Document(source, Processing, None)]); PcFits(tools, db', pc')
    ensures StepFits(tools, s, State(s.db.(documents := s.db.documents[d := Document(source, Processing, None)]), s.queue, pc'))
  {
    hide TailFits, RowsFit, PcFits, Grows, IsStaged;
    AddDocumentKeeps(tools, s.db, d, Document(source, Processing, None));
  }

  // ---- Steps that write ------------------------------------------------------------------------------

  lemma NewVersionFits(tools: Tools, s: State, v: Id, row: Version, pc': Pc)
    requires TailFits(tools) && StateFits(tools, s) && v !in s.db.versions && row.document in s.db.documents
    requires (IsStaged(row) || IsParsed(row)) && row.number == NextNumber(s.db, row.document)
    requires || (IsParsed(row) && pc' == CreateJob(row.document, v, row.rawText.value))
             || (IsStaged(row) && pc' == QueueJob(row.document, v))
    ensures StepFits(tools, s, State(WithVersion(s.db, v, row), s.queue, pc'))
  {
    hide TailFits, RowsFit, Grows, IsStaged;
    AddVersionKeeps(tools, s.db, v, row);
    NewVersionUnused(tools, s.db, v);
  }

  lemma NewVersionUnused(tools: Tools, db: Db, v: Id)
    requires TailFits(tools) && RowsFit(tools, db) && v !in db.versions
    ensures forall j :: j in db.jobs ==> db.jobs[j].version != v
  {
    hide TailFits, ActiveFits;
  }

  lemma NewJobFits(tools: Tools, s: State, j: Id, pc': Pc)
    requires TailFits(tools) && StateFits(tools, s) && j !in s.db.jobs
    requires || (s.pc.CreateJob? && pc' == MarkRunning(Work(s.pc.document, s.pc.version, j, s.pc.text)))
             || (s.pc.QueueJob? && pc' == Enqueue(j))
    ensures StepFits(tools, s, State(WithJob(s.db, j, Job(s.pc.document, s.pc.version, Queued, 0, None)), s.queue, pc'))
  {
    hide TailFits, RowsFit, Grows, IsStaged, IsParsed;
    AddJobKeeps(tools, s.db, j, Job(s.pc.document, s.pc.version, Queued, 0, None));
  }

  lemma ReservationFits(tools: Tools, s: State, luck: Luck)
    requires TailFits(tools) && StateFits(tools, s) && !IsUpload(s.pc) && !IsPipeline(s.pc) && !IsWorker(s.pc)
    ensures StepFits(tools, s, ReservationStep(s, luck))
  {
    hide TailFits, RowsFit, Load, StepFits, HasSource, IsLatest, Grows;
    var s' := ReservationStep(s, luck);
    match s.pc
    case LoadMore(d, content) =>
      if d in s.db.documents && Load(content, s.db.documents[d].source, luck.parser).Ok? {
        LoadedHasText(content, s.db.documents[d].source, luck.parser);
      }
      OnlyMoves(tools, s, s'.pc);
    case CreateParsed(d, text) => CreateParsedFits(tools, s, luck);
    case CreateJob(_, _, _) =>
      if luck.id in s.db.jobs {
        OnlyMoves(tools, s, Done);
      } else {
        NewJobFits(tools, s, luck.id, s'.pc);
      }
    case QueueJob(_, _) =>
      if luck.id in s.db.jobs {
        OnlyMoves(tools, s, Done);
      } else {
        NewJobFits(tools, s, luck.id, s'.pc);
      }
    case MarkRunning(work) => MarkRunningFits(tools, s, luck);
    case QueueDocument(source, _) =>
      if luck.id in s.db.documents {
        OnlyMoves(tools, s, Done);
      } else {
        NewDocumentFits(tools, s, luck.id, source, s'.pc);
      }
    case Reserve(d, content) =>
      if s'.pc.QueueJob? {
        NewVersionFits(tools, s, luck.id, StagedRow(d, NextNumber(s.db, d), content), s'.pc);
      } else {
        if s'.pc.Adopt? {
          VersionOfSource(tools, s.db, s'.pc.existing, d, content);
        }
        OnlyMoves(tools, s, s'.pc);
      }
    case Enqueue(j) => EnqueueFits(tools, s, luck);
    case _ =>
      if s' == s {
        StaysPut(tools, s);
      } else {
        CheckFits(tools, s, luck);
      }
  }

  lemma CreateParsedFits(tools: Tools, s: State, luck: Luck)
    requires TailFits(tools) && StateFits(tools, s) && s.pc.CreateParsed?
    ensures StepFits(tools, s, ReservationStep(s, luck))
  {
    hide TailFits, StepFits, Grows, RowsFit;
    var s' := ReservationStep(s, luck);
    if s'.pc.CreateJob? {
      NewVersionFits(tools, s, luck.id, ParsedRow(s.pc.document, NextNumber(s.db, s.pc.document), s.pc.text), s'.pc);
    } else {
      if s'.pc.Reuse? {
        VersionOfText(tools, s.db, s'.pc.existing, s.pc.document, s.pc.text);
      }
      OnlyMoves(tools, s, s'.pc);
    }
  }

  lemma VersionOfText(tools: Tools, db: Db, v: Id, d: Id, text: string)
    requires TailFits(tools) && RowsFit(tools, db) && v in db.versions && HasText(db, v, d, text)
    ensures IsVersionOf(db, v, d) && HasParsed(db, v, text)
  {
    hide TailFits, ActiveFits;
  }

  lemma VersionOfSource(tools: Tools, db: Db, v: Id, d: Id, content: Bytes)
    requires TailFits(tools) && RowsFit(tools, db) && v in db.versions && HasSource(db, v, d, content)
    ensures IsVersionOf(db, v, d)
  {
    hide TailFits, ActiveFits;
  }

  lemma CheckFits(tools: Tools, s: State, luck: Luck)
    requires TailFits(tools) && StateFits(tools, s)
    requires s.pc.CheckText? || s.pc.CheckTextJob? || s.pc.Reuse? || s.pc.Validate? || s.pc.Adopt? || s.pc.Done? || s.pc.Answered?
    ensures StepFits(tools, s, ReservationStep(s, luck)) || ReservationStep(s, luck) == s
  {
    hide TailFits, StepFits, RowsFit, HasText, IsLatest;
    var s' := ReservationStep(s, luck);
    if s' != s {
      OnlyMoves(tools, s, s'.pc);
    }
  }

  lemma MarkRunningFits(tools: Tools, s: State, luck: Luck)
    requires TailFits(tools) && StateFits(tools, s) && s.pc.MarkRunning?
    ensures StepFits(tools, s, ReservationStep(s, luck))
  {
    hide TailFits, RowsFit, Grows, IsStaged, IsParsed;
    JobError(tools, s.db, s.pc.work.job);
    var job := s.db.jobs[s.pc.work.job];
    ChangeJobKeeps(tools, s.db, s.pc.work.job, job.(status := Running, attempts := job.attempts + 1));
  }

  lemma EnqueueFits(tools: Tools, s: State, luck: Luck)
    requires TailFits(tools) && StateFits(tools, s) && s.pc.Enqueue?
    ensures StepFits(tools, s, ReservationStep(s, luck))
  {
    hide TailFits, RowsFit, Grows;
    GrowsReflexive(tools, s.db);
  }

  // ---- The worker --------------------------------------------------------------------------------------

  lemma WorkerFits(tools: Tools, s: State, luck: Luck)
    requires TailFits(tools) && StateFits(tools, s) && IsWorker(s.pc)
    ensures StepFits(tools, s, WorkerStep(s, luck))
  {
    hide TailFits, RowsFit, Load, Reload, StepFits, Grows, TextTaken, IsStaged, IsParsed;
    match s.pc
    case Claim(j) => ClaimFits(tools, s, luck);
    case ReadRows(d, v, j) => ReadRowsFits(tools, s, luck);
    case ReloadText(work) => ReloadFits(tools, s, luck);
    case ReadBytes(d, v, j) => ReadBytesFits(tools, s, luck);
    case Parse(d, v, j, content) =>
      if Load(content, s.db.documents[d].source, luck.parser).Ok? {
        LoadedHasText(content, s.db.documents[d].source, luck.parser);
      }
      OnlyMoves(tools, s, WorkerStep(s, luck).pc);
    case Backfill(work) => BackfillFits(tools, s, luck);
  }

  lemma ClaimFits(tools: Tools, s: State, luck: Luck)
    requires TailFits(tools) && StateFits(tools, s) && s.pc.Claim?
    ensures StepFits(tools, s, WorkerStep(s, luck))
  {
    hide TailFits, RowsFit, Grows, IsStaged, IsParsed;
    var j := s.pc.job;
    if j in s.db.jobs && s.db.jobs[j].status == Queued {
      JobHasVersion(tools, s.db, j);
      JobError(tools, s.db, j);
      var job := s.db.jobs[j];
      ChangeJobKeeps(tools, s.db, j, job.(status := Running, attempts := job.attempts + 1));
    } else {
      OnlyMoves(tools, s, Done);
    }
  }

  lemma JobHasVersion(tools: Tools, db: Db, j: Id)
    requires TailFits(tools) && RowsFit(tools, db) && j in db.jobs
    ensures IsVersionOf(db, db.jobs[j].version, db.jobs[j].document)
  {
    hide TailFits, ActiveFits, IsStaged, IsParsed;
  }

  lemma JobError(tools: Tools, db: Db, j: Id)
    requires TailFits(tools) && RowsFit(tools, db) && j in db.jobs
    ensures db.jobs[j].error in {None, Some(OtherFailure)}
  {
    hide TailFits, ActiveFits, IsStaged, IsParsed;
  }

  lemma VersionForm(tools: Tools, db: Db, v: Id)
    requires TailFits(tools) && RowsFit(tools, db) && v in db.versions
    ensures IsStaged(db.versions[v]) || IsParsed(db.versions[v])
  {
    hide TailFits, ActiveFits;
  }

  lemma ReadRowsFits(tools: Tools, s: State, luck: Luck)
    requires TailFits(tools) && StateFits(tools, s) && s.pc.ReadRows?
    ensures StepFits(tools, s, WorkerStep(s, luck))
  {
    hide TailFits, RowsFit, StepFits;
    VersionForm(tools, s.db, s.pc.version);
    OnlyMoves(tools, s, WorkerStep(s, luck).pc);
  }

  /** A staged version has its upload: the branch for a missing source is never taken. */
  lemma ReadBytesFits(tools: Tools, s: State, luck: Luck)
    requires TailFits(tools) && StateFits(tools, s) && s.pc.ReadBytes?
    ensures WorkerStep(s, luck).pc.Parse?
    ensures StepFits(tools, s, WorkerStep(s, luck))
  {
    hide TailFits, RowsFit, StepFits;
    OnlyMoves(tools, s, WorkerStep(s, luck).pc);
  }

  lemma ReloadKeepsText(text: string, source: SourceType)
    requires Reload(text, source).Ok? && IsLoadedText(text)
    ensures Reload(text, source).value.text == text
  {
    hide SectionsOf;
    CrLfWithoutCr(text);
    assert ReplaceCr(text) == text;
  }

  lemma ReloadFits(tools: Tools, s: State, luck: Luck)
    requires TailFits(tools) && StateFits(tools, s) && s.pc.ReloadText?
    ensures StepFits(tools, s, WorkerStep(s, luck))
  {
    hide TailFits, RowsFit, StepFits, Reload, IsLoadedText;
    var work := s.pc.work;
    if Reload(work.text, s.db.documents[work.document].source).Ok? {
      ReloadKeepsText(work.text, s.db.documents[work.document].source);
    }
    OnlyMoves(tools, s, WorkerStep(s, luck).pc);
  }

  lemma BackfillFits(tools: Tools, s: State, luck: Luck)
    requires TailFits(tools) && StateFits(tools, s) && s.pc.Backfill?
    ensures StepFits(tools, s, WorkerStep(s, luck))
  {
    hide TailFits, RowsFit, Grows, TextTaken, IsLoadedText;
    var work := s.pc.work;
    if luck.before || TextTaken(s.db, work) {
      OnlyMoves(tools, s, WorkerStep(s, luck).pc);
    } else {
      BackfillKeeps(tools, s.db, work.version, work.text);
    }
  }

  // ---- The pipeline --------------------------------------------------------------------------------------

  lemma PipelineFits(tools: Tools, s: State, luck: Luck)
    requires TailFits(tools) && StateFits(tools, s) && IsPipeline(s.pc)
    ensures StepFits(tools, s, ChunkStep(tools, s, luck))
  {
    hide TailFits, RowsFit, StepFits, Grows, ChunksOf, IsStaged, IsParsed, Points;
    match s.pc
    case Chunking(work, byWorker) => OnlyMoves(tools, s, ChunkStep(tools, s, luck).pc);
    case Replacing(work, chunks, byWorker) => ReplacingFits(tools, s, luck);
    case Upserting(work, chunks, byWorker) => UpsertingFits(tools, s, luck);
    case Activating(work, byWorker) => ActivatingFits(tools, s, luck);
    case Failing(d, v, j, error, again) => FailingFits(tools, s, luck);
  }

  lemma ReplacingFits(tools: Tools, s: State, luck: Luck)
    requires TailFits(tools) && StateFits(tools, s) && s.pc.Replacing?
    ensures StepFits(tools, s, ChunkStep(tools, s, luck))
  {
    hide TailFits, RowsFit, Grows, ChunksOf, IsStaged, IsParsed, Stored;
    if luck.before {
      OnlyMoves(tools, s, ChunkStep(tools, s, luck).pc);
    } else {
      PutChunksKeeps(tools, s.db, s.pc.work, s.pc.chunks);
    }
  }

  lemma UpsertingFits(tools: Tools, s: State, luck: Luck)
    requires TailFits(tools) && StateFits(tools, s) && s.pc.Upserting?
    ensures StepFits(tools, s, ChunkStep(tools, s, luck))
  {
    hide TailFits, RowsFit, Grows, ChunksOf, IsStaged, IsParsed, Points, Stored;
    var work, chunks := s.pc.work, s.pc.chunks;
    var batch := Points(work.version, chunks);
    var written := if luck.before then batch * luck.written else batch;
    AddPointsKeeps(tools, s.db, written);
    StoredKept(tools, s.db, s.db.(points := s.db.points + written), work.version);
    StoredAsCanonical(tools, s.db, work, chunks);
  }

  lemma StoredAsCanonical(tools: Tools, db: Db, work: Work, chunks: seq<Chunk>)
    requires TailFits(tools) && ReadyFits(db, work) && IsCanonical(tools, db, work, chunks) && Stored(tools, db, work.version)
    ensures work.version in db.chunks && db.chunks[work.version] == chunks
  {
    hide TailFits, ChunksOf;
  }

  lemma ActivatingFits(tools: Tools, s: State, luck: Luck)
    requires TailFits(tools) && StateFits(tools, s) && s.pc.Activating?
    ensures StepFits(tools, s, ChunkStep(tools, s, luck))
  {
    hide TailFits, RowsFit, Grows, IsStaged, IsParsed, Points, Stored, Pointed;
    var work := s.pc.work;
    if luck.before {
      OnlyMoves(tools, s, Raised(work, s.pc.byWorker));
    } else {
      ActivateKeeps(tools, s.db, work.document, work.version);
      var db1 := s.db.(documents := s.db.documents[work.document := s.db.documents[work.document].(status := Active, active := Some(work.version))]);
      ChangeJobKeeps(tools, db1, work.job, db1.jobs[work.job].(status := Succeeded, error := None));
      GrowsTransitive(tools, s.db, db1, WithJob(db1, work.job, db1.jobs[work.job].(status := Succeeded, error := None)));
    }
  }

  lemma GrowsTransitive(tools: Tools, a: Db, b: Db, c: Db)
    requires TailFits(tools) && Grows(tools, a, b) && Grows(tools, b, c)
    ensures Grows(tools, a, c)
  {
    hide TailFits, IsStaged, Stored;
    forall v | v in a.chunks && Stored(tools, a, v)
      ensures v in c.chunks && c.chunks[v] == a.chunks[v]
    {
      StoredKept(tools, a, b, v);
    }
  }

  lemma FailingFits(tools: Tools, s: State, luck: Luck)
    requires TailFits(tools) && StateFits(tools, s) && s.pc.Failing?
    ensures StepFits(tools, s, ChunkStep(tools, s, luck))
  {
    hide TailFits, RowsFit, Grows, IsStaged, IsParsed;
    var d, j := s.pc.document, s.pc.job;
    if luck.before {
      OnlyMoves(tools, s, ChunkStep(tools, s, luck).pc);
    } else {
      var db1 := WithJob(s.db, j, s.db.jobs[j].(status := FailedJob, error := Some(s.pc.error)));
      ChangeJobKeeps(tools, s.db, j, s.db.jobs[j].(status := FailedJob, error := Some(s.pc.error)));
      ChangeStatusKeeps(tools, db1, d, FailedDocumentRow(db1.documents[d]).status);
      GrowsTransitive(tools, s.db, db1, Failed(s.db, d, j, s.pc.error));
    }
  }

  /** Every step of a call keeps what it and the rows promise. */
  lemma CallFits(tools: Tools, s: State, luck: Luck)
    requires TailFits(tools) && StateFits(tools, s)
    ensures StepFits(tools, s, CallStep(tools, s, luck))
  {
    hide TailFits, StateFits, StepFits, UploadStep, ReservationStep, WorkerStep, ChunkStep;
    if IsUpload(s.pc) {
      UploadFits(tools, s, luck);
    } else if IsPipeline(s.pc) {
      PipelineFits(tools, s, luck);
    } else if IsWorker(s.pc) {
      WorkerFits(tools, s, luck);
    } else {
      ReservationFits(tools, s, luck);
    }
  }
}
