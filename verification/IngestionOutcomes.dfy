/** How calls of the ingestion end when nothing disturbs them, in rows: what a job leaves, what a new
    upload leaves in the request, and what it leaves for the worker. */
module IngestionOutcomes {
  import opened Outcomes
  import opened Text
  import opened DocumentLoader
  import opened Chunking
  import opened IngestionMachine
  import opened IngestionSafety
  import opened IngestionSteps
  import opened IngestionTheorems
  import opened IngestionService
  import opened Reuploads

  // ---- The two ends ------------------------------------------------------------------------------------

  /** The job has failed, and so has its document, unless it has an active version. */
  function FailedRows(db: Db, d: Id, j: Id): Db
    requires d in db.documents && j in db.jobs
  {
    db.(jobs := db.jobs[j := db.jobs[j].(status := FailedJob, error := Some(OtherFailure))],
        documents := if db.documents[d].active.Some? then db.documents
                     else db.documents[d := db.documents[d].(status := FailedDocument)])
  }

  /** The job has succeeded, and its version is the active one of its document. */
  function ActivatedRows(db: Db, d: Id, v: Id, j: Id): Db
    requires d in db.documents && j in db.jobs
  {
    db.(jobs := db.jobs[j := db.jobs[j].(status := Succeeded, error := None)],
        documents := db.documents[d := db.documents[d].(status := Active, active := Some(v))])
  }

  /** A point for every chunk, and no other. */
  predicate ArePoints(points: set<Point>, v: Id, chunks: seq<Chunk>) {
    && (forall i :: 0 <= i < |chunks| ==> Point(v, chunks[i].ordinal) in points)
    && (forall x :: x in points ==> x.version == v && exists i :: 0 <= i < |chunks| && chunks[i].ordinal == x.ordinal)
  }

  lemma PointsAre(v: Id, chunks: seq<Chunk>)
    ensures ArePoints(Points(v, chunks), v, chunks)
  {
  }

  // ---- The steps of a job, one by one --------------------------------------------------------------------

  lemma {:induction false} ClaimGoes(tools: Tools, s: State, outside: Outside)
    requires TailFits(tools) && s.pc.Claim? && s.pc.job in s.db.jobs && s.db.jobs[s.pc.job].status == Queued
    ensures var (j, job) := (s.pc.job, s.db.jobs[s.pc.job]);
            Finish(tools, s, outside)
            == Finish(tools, State(s.db.(jobs := s.db.jobs[j := job.(status := Running, attempts := job.attempts + 1)]), s.queue,
                                   ReadRows(job.document, job.version, j)), outside)
  {
    hide Finish, TailFits, UploadStep, ReservationStep, ChunkStep, Load, Reload;
    Advance(tools, s, outside);
  }

  lemma {:induction false} ReadRowsGoes(tools: Tools, s: State, outside: Outside)
    requires TailFits(tools) && s.pc.ReadRows? && IsVersionOf(s.db, s.pc.version, s.pc.document)
    requires s.db.versions[s.pc.version].contentHash == s.db.versions[s.pc.version].rawText
    ensures var (d, v, j, text) := (s.pc.document, s.pc.version, s.pc.job, s.db.versions[s.pc.version].rawText);
            Finish(tools, s, outside)
            == Finish(tools, s.(pc := if text.Some? then ReloadText(Work(d, v, j, text.value)) else ReadBytes(d, v, j)), outside)
  {
    hide Finish, TailFits, UploadStep, ReservationStep, ChunkStep, Load, Reload;
    Advance(tools, s, outside);
  }

  lemma {:induction false} ReloadGoes(tools: Tools, s: State, outside: Outside)
    requires TailFits(tools) && s.pc.ReloadText? && s.pc.work.document in s.db.documents
    ensures var work := s.pc.work;
            var loaded := Reload(work.text, s.db.documents[work.document].source);
            Finish(tools, s, outside)
            == Finish(tools, s.(pc := if loaded.Ok? then Chunking(work.(text := loaded.value.text), true)
                                      else Failing(work.document, work.version, work.job, OtherFailure, false)), outside)
  {
    hide Finish, TailFits, UploadStep, ReservationStep, ChunkStep, Load, Reload;
    Advance(tools, s, outside);
  }

  lemma {:induction false} ParseGoes(tools: Tools, s: State, outside: Outside)
    requires TailFits(tools) && s.pc.ReadBytes? && IsVersionOf(s.db, s.pc.version, s.pc.document) && s.db.versions[s.pc.version].rawBytes.Some?
    ensures var (d, v, j) := (s.pc.document, s.pc.version, s.pc.job);
            var loaded := Load(s.db.versions[v].rawBytes.value, s.db.documents[d].source, outside.parser);
            Finish(tools, s, outside)
            == Finish(tools, s.(pc := if loaded.Ok? then Backfill(Work(d, v, j, loaded.value.text)) else Failing(d, v, j, OtherFailure, false)), outside)
  {
    hide Finish, TailFits, UploadStep, ReservationStep, ChunkStep, Load, Reload;
    Advance(tools, s, outside);
    Advance(tools, s.(pc := Parse(s.pc.document, s.pc.version, s.pc.job, s.db.versions[s.pc.version].rawBytes.value)), outside);
  }

  lemma {:induction false} BackfillGoes(tools: Tools, s: State, outside: Outside)
    requires TailFits(tools) && s.pc.Backfill? && s.pc.work.version in s.db.versions
    ensures var (db, work) := (s.db, s.pc.work);
            Finish(tools, s, outside)
            == if TextTaken(db, work) then Finish(tools, s.(pc := Failing(work.document, work.version, work.job, OtherFailure, false)), outside)
               else
                 var row := db.versions[work.version].(contentHash := Some(work.text), rawText := Some(work.text), rawBytes := None);
                 Finish(tools, State(db.(versions := db.versions[work.version := row]), s.queue, Chunking(work, true)), outside)
  {
    hide Finish, TailFits, UploadStep, ReservationStep, ChunkStep, Load, Reload, TextTaken;
    Advance(tools, s, outside);
  }

  lemma {:induction false} ChunkingGoes(tools: Tools, s: State, outside: Outside)
    requires TailFits(tools) && s.pc.Chunking? && s.pc.work.document in s.db.documents
    ensures var (work, byWorker) := (s.pc.work, s.pc.byWorker);
            var split := ChunksOf(tools, work.text, s.db.documents[work.document].source);
            Finish(tools, s, outside)
            == Finish(tools, s.(pc := if split.Err? || outside.embeddingFails then Raised(work, byWorker) else Replacing(work, split.value, byWorker)), outside)
  {
    hide Finish, TailFits, ChunksOf, UploadStep, ReservationStep, WorkerStep;
    Advance(tools, s, outside);
  }

  lemma {:induction false} ReplacingGoes(tools: Tools, s: State, outside: Outside)
    requires TailFits(tools) && s.pc.Replacing?
    ensures var work := s.pc.work;
            Finish(tools, s, outside)
            == Finish(tools, State(s.db.(chunks := s.db.chunks[work.version := s.pc.chunks]), s.queue,
                                   Upserting(work, s.pc.chunks, s.pc.byWorker)), outside)
  {
    hide Finish, TailFits, UploadStep, ReservationStep, WorkerStep;
    Advance(tools, s, outside);
  }

  lemma {:induction false} UpsertingGoes(tools: Tools, s: State, outside: Outside)
    requires TailFits(tools) && s.pc.Upserting?
    ensures var (work, points) := (s.pc.work, Points(s.pc.work.version, s.pc.chunks));
            Finish(tools, s, outside)
            == match outside.upsertFailsAfter
               case None => Finish(tools, State(s.db.(points := s.db.points + points), s.queue, Activating(work, s.pc.byWorker)), outside)
               case Some(some) => Finish(tools, State(s.db.(points := s.db.points + points * some), s.queue, Raised(work, s.pc.byWorker)), outside)
  {
    hide Finish, TailFits, Points, UploadStep, ReservationStep, WorkerStep;
    Advance(tools, s, outside);
  }

  lemma {:induction false} ActivatingGoes(tools: Tools, s: State, outside: Outside)
    requires TailFits(tools) && s.pc.Activating? && WorkFits(s.db, s.pc.work)
    ensures var work := s.pc.work; Finish(tools, s, outside).db == ActivatedRows(s.db, work.document, work.version, work.job)
  {
    hide Finish, TailFits, UploadStep, ReservationStep, WorkerStep;
    Advance(tools, s, outside);
    JobDone(tools, CallStep(tools, s, LuckFor(s.pc, outside)), outside);
  }

  /** Recording a failure once or twice comes to the same. */
  lemma {:induction false} FailureEnds(tools: Tools, s: State, outside: Outside)
    requires TailFits(tools) && s.pc.Failing? && s.pc.error == OtherFailure && s.pc.document in s.db.documents && s.pc.job in s.db.jobs
    ensures Finish(tools, s, outside).db == FailedRows(s.db, s.pc.document, s.pc.job)
    decreases s.pc.again
  {
    hide Finish, TailFits, UploadStep, ReservationStep, WorkerStep;
    Advance(tools, s, outside);
    var (d, j) := (s.pc.document, s.pc.job);
    var failed := FailedRows(s.db, d, j);
    FailureIs(s.db, d, j);
    if s.pc.again {
      FailureEnds(tools, State(failed, s.queue, s.pc.(again := false)), outside);
      FailedTwice(s.db, d, j);
    } else {
      JobDone(tools, State(failed, s.queue, Done), outside);
    }
  }

  lemma FailureIs(db: Db, d: Id, j: Id)
    requires d in db.documents && j in db.jobs
    ensures Failed(db, d, j, OtherFailure) == FailedRows(db, d, j)
  {
    assert db.documents[d := db.documents[d]] == db.documents;
  }

  lemma FailedTwice(db: Db, d: Id, j: Id)
    requires d in db.documents && j in db.jobs
    ensures FailedRows(FailedRows(db, d, j), d, j) == FailedRows(db, d, j)
  {
    var (once, twice) := (FailedRows(db, d, j), FailedRows(FailedRows(db, d, j), d, j));
    assert twice.jobs == once.jobs && twice.documents == once.documents;
  }

  // ---- The pipeline --------------------------------------------------------------------------------------

  /** The pipeline fails the job if its text cannot be split or embedded, and if its points cannot all
      be written; otherwise it stores the chunks and a point for each, and activates the version. */
  lemma {:induction false} PipelineEnds(tools: Tools, s: State, outside: Outside)
    requires TailFits(tools) && s.pc.Chunking? && WorkFits(s.db, s.pc.work)
    ensures var (db, work) := (s.db, s.pc.work);
            var (d, v, j) := (work.document, work.version, work.job);
            var (final, split) := (Finish(tools, s, outside).db, SplitDocument(DocumentOf(work.text, db.documents[d].source), tools));
            if split.Err? || outside.embeddingFails then final == FailedRows(db, d, j)
            else exists points :: ArePoints(points, v, split.value) &&
                   var stored := db.(chunks := db.chunks[v := split.value]);
                   match outside.upsertFailsAfter
                   case None => final == ActivatedRows(stored.(points := db.points + points), d, v, j)
                   case Some(some) => final == FailedRows(stored.(points := db.points + points * some), d, j)
  {
    hide Finish, TailFits, SplitDocument, DocumentOf, Points, ArePoints, FailedRows, ActivatedRows;
    var (db, work, byWorker) := (s.db, s.pc.work, s.pc.byWorker);
    var split := ChunksOf(tools, work.text, db.documents[work.document].source);
    ChunkingGoes(tools, s, outside);
    if split.Err? || outside.embeddingFails {
      FailureEnds(tools, State(db, s.queue, Raised(work, byWorker)), outside);
    } else {
      ReplacingGoes(tools, State(db, s.queue, Replacing(work, split.value, byWorker)), outside);
      PointsAre(work.version, split.value);
      var stored := db.(chunks := db.chunks[work.version := split.value]);
      StoringEnds(tools, State(stored, s.queue, Upserting(work, split.value, byWorker)), outside);
    }
  }

  lemma {:induction false} StoringEnds(tools: Tools, s: State, outside: Outside)
    requires TailFits(tools) && s.pc.Upserting? && WorkFits(s.db, s.pc.work)
    ensures var (stored, work, points) := (s.db, s.pc.work, Points(s.pc.work.version, s.pc.chunks));
            var final := Finish(tools, s, outside).db;
            match outside.upsertFailsAfter
            case None => final == ActivatedRows(stored.(points := stored.points + points), work.document, work.version, work.job)
            case Some(some) => final == FailedRows(stored.(points := stored.points + points * some), work.document, work.job)
  {
    hide Finish, TailFits, Points, FailedRows, ActivatedRows;
    var (stored, work, byWorker, points) := (s.db, s.pc.work, s.pc.byWorker, Points(s.pc.work.version, s.pc.chunks));
    UpsertingGoes(tools, s, outside);
    match outside.upsertFailsAfter
    case Some(some) =>
      FailureEnds(tools, State(stored.(points := stored.points + points * some), s.queue, Raised(work, byWorker)), outside);
    case None =>
      ActivatingGoes(tools, State(stored.(points := stored.points + points), s.queue, Activating(work, byWorker)), outside);
  }

  // ---- A job ------------------------------------------------------------------------------------------------

  /** Another version of the document has this text. */
  predicate IsTextOfOther(db: Db, v: Id, d: Id, text: string) {
    exists w :: w in db.versions && w != v && db.versions[w].document == d && db.versions[w].contentHash == Some(text)
  }

  /** A queued job that runs undisturbed: a stored text is loaded again, a staged upload is parsed and
      its text recorded in its place; if it cannot be loaded, or another version of the document has
      the text, the job fails; otherwise its pipeline decides. */
  lemma {:induction false} JobEnds(tools: Tools, p: Process, j: Id, outside: Outside)
    requires TailFits(tools) && Reachable(tools, p) && j in p.db.jobs && p.db.jobs[j].status == Queued
    ensures var (d, v) := (p.db.jobs[j].document, p.db.jobs[j].version);
            && d in p.db.documents && v in p.db.versions
            && var (row, source) := (p.db.versions[v], p.db.documents[d].source);
            && (row.rawText.None? ==> row.rawBytes.Some?)
            && var running := p.db.(jobs := p.db.jobs[j := p.db.jobs[j].(status := Running, attempts := p.db.jobs[j].attempts + 1)]);
            var loaded := if row.rawText.Some? then Reload(row.rawText.value, source) else Load(row.rawBytes.value, source, outside.parser);
            var final := Finish(tools, State(p.db, p.queue, Claim(j)), outside).db;
            if loaded.Err? || (row.rawText.None? && IsTextOfOther(p.db, v, d, loaded.value.text)) then final == FailedRows(running, d, j)
            else
              var text := loaded.value.text;
              var recorded := running.(versions := running.versions[v := row.(contentHash := Some(text), rawText := Some(text), rawBytes := None)]);
              final == Finish(tools, State(recorded, p.queue, Chunking(Work(d, v, j, text), true)), outside).db
  {
    hide Finish, TailFits, Reachable, Load, Reload, FailedRows, RowsFit, ThreadsFit, AllApart, IsTextOfOther, TextTaken, IsLoadedText;
    ReachableIsSafe(tools, p);
    JobHasVersion(tools, p.db, j);
    VersionForm(tools, p.db, p.db.jobs[j].version);
    var (d, v, job) := (p.db.jobs[j].document, p.db.jobs[j].version, p.db.jobs[j]);
    var running := p.db.(jobs := p.db.jobs[j := job.(status := Running, attempts := job.attempts + 1)]);
    ClaimGoes(tools, State(p.db, p.queue, Claim(j)), outside);
    ReadRowsGoes(tools, State(running, p.queue, ReadRows(d, v, j)), outside);
    if p.db.versions[v].rawText.Some? {
      var work := Work(d, v, j, p.db.versions[v].rawText.value);
      ReloadEnds(tools, State(running, p.queue, ReloadText(work)), outside);
      assert running.versions[v := running.versions[v]] == running.versions;
    } else {
      ParseEnds(tools, State(running, p.queue, ReadBytes(d, v, j)), outside);
      OtherText(p.db, running, Work(d, v, j, ""));
    }
  }

  lemma OtherText(db: Db, db': Db, work: Work)
    requires db'.versions == db.versions
    ensures forall text :: TextTaken(db', work.(text := text)) <==> IsTextOfOther(db, work.version, work.document, text)
  {
    forall text
      ensures TextTaken(db', work.(text := text)) <==> IsTextOfOther(db, work.version, work.document, text)
    {
      assert forall w :: w in db.versions ==>
        (HasText(db', w, work.document, text) <==> db.versions[w].document == work.document && db.versions[w].contentHash == Some(text));
    }
  }

  lemma {:induction false} ReloadEnds(tools: Tools, s: State, outside: Outside)
    requires TailFits(tools) && s.pc.ReloadText? && ReadyFits(s.db, s.pc.work)
    ensures var (db, work) := (s.db, s.pc.work);
            var (loaded, final) := (Reload(work.text, db.documents[work.document].source), Finish(tools, s, outside).db);
            if loaded.Err? then final == FailedRows(db, work.document, work.job)
            else
              && loaded.value.text == work.text
              && db.versions[work.version] == db.versions[work.version].(contentHash := Some(work.text), rawText := Some(work.text), rawBytes := None)
              && final == Finish(tools, State(db, s.queue, Chunking(work, true)), outside).db
  {
    hide Finish, TailFits, Reload, FailedRows, IsLoadedText;
    ReloadGoes(tools, s, outside);
    var loaded := Reload(s.pc.work.text, s.db.documents[s.pc.work.document].source);
    if loaded.Err? {
      FailureEnds(tools, State(s.db, s.queue, Failing(s.pc.work.document, s.pc.work.version, s.pc.work.job, OtherFailure, false)), outside);
    } else {
      ReloadKeepsText(s.pc.work.text, s.db.documents[s.pc.work.document].source);
    }
  }

  lemma {:induction false} ParseEnds(tools: Tools, s: State, outside: Outside)
    requires TailFits(tools) && s.pc.ReadBytes? && IsVersionOf(s.db, s.pc.version, s.pc.document) && IsStaged(s.db.versions[s.pc.version])
    requires JobIs(s.db, s.pc.job, s.pc.document, s.pc.version)
    ensures var (db, d, v, j) := (s.db, s.pc.document, s.pc.version, s.pc.job);
            var row := db.versions[v];
            var (loaded, final) := (Load(row.rawBytes.value, db.documents[d].source, outside.parser), Finish(tools, s, outside).db);
            if loaded.Err? || TextTaken(db, Work(d, v, j, loaded.value.text)) then final == FailedRows(db, d, j)
            else
              var text := loaded.value.text;
              var recorded := db.(versions := db.versions[v := row.(contentHash := Some(text), rawText := Some(text), rawBytes := None)]);
              final == Finish(tools, State(recorded, s.queue, Chunking(Work(d, v, j, text), true)), outside).db
  {
    hide Finish, TailFits, Load, FailedRows, TextTaken;
    var (db, d, v, j) := (s.db, s.pc.document, s.pc.version, s.pc.job);
    var loaded := Load(db.versions[v].rawBytes.value, db.documents[d].source, outside.parser);
    ParseGoes(tools, s, outside);
    if loaded.Err? {
      FailureEnds(tools, State(db, s.queue, Failing(d, v, j, OtherFailure, false)), outside);
    } else {
      var work := Work(d, v, j, loaded.value.text);
      BackfillGoes(tools, State(db, s.queue, Backfill(work)), outside);
      if TextTaken(db, work) {
        FailureEnds(tools, State(db, s.queue, Failing(d, v, j, OtherFailure, false)), outside);
      }
    }
  }

  // ---- A new upload ------------------------------------------------------------------------------------------

  /** A new upload in the request that nothing disturbs: one that cannot be loaded writes nothing; any
      other leads to a pipeline over the first version, with its text, of a new document, under a
      running job. */
  lemma {:induction false} NewUploadRuns(tools: Tools, p: Process, t: nat, source: SourceType, content: Bytes, parser: Option<Parser>, d: Id, v: Id, j: Id)
    returns (q: Process)
    requires TailFits(tools) && Reachable(tools, p) && t !in p.threads && d !in p.db.documents && v !in p.db.versions && j !in p.db.jobs
    ensures LeadsTo(tools, Next(tools, p, Upload(t, source, content, false)), t, q) && t in q.threads && q.queue == p.queue
    ensures match Load(content, source, parser)
            case Err(_) => q.db == p.db && q.threads[t] == Done
            case Ok(loaded) =>
              && q.threads[t] == Chunking(Work(d, v, j, loaded.text), false)
              && q.db == p.db.(documents := p.db.documents[d := Document(source, Processing, None)],
                               versions := p.db.versions[v := Version(d, 1, None, None, Some(loaded.text), Some(loaded.text))],
                               jobs := p.db.jobs[j := Job(d, v, Running, 1, None)])
  {
    hide TailFits, Reachable, LeadsTo, Next, Load, NextNumber, HasText, RowsFit, ThreadsFit, AllApart;
    ReachableIsSafe(tools, p);
    NothingYet(tools, p.db, d);
    q := UploadStarts(tools, p, t, source, content);
    var start := q;
    LeadsNowhere(tools, start, t);
    q := NewDocument(tools, start, t, q, parser, d);
    if Load(content, source, parser).Ok? {
      FirstNumber(p.db, q.db, d);
      q := NewParsed(tools, start, t, q, v, j);
    }
  }

  lemma UploadStarts(tools: Tools, p: Process, t: nat, source: SourceType, content: Bytes) returns (start: Process)
    requires TailFits(tools) && t !in p.threads
    ensures start == Next(tools, p, Upload(t, source, content, false)) && start.db == p.db && start.queue == p.queue
    ensures t in start.threads && start.threads[t] == LoadNew(source, content)
  {
    hide TailFits, CallStep;
    start := Next(tools, p, Upload(t, source, content, false));
  }

  lemma LeadsOn(tools: Tools, p: Process, t: nat, q: Process, luck: Luck)
    requires TailFits(tools) && LeadsTo(tools, p, t, q) && t in q.threads
    ensures var (next, step) := (Next(tools, q, Go(t, luck)), CallStep(tools, State(q.db, q.queue, q.threads[t]), luck));
            LeadsTo(tools, p, t, next) && t in next.threads && next.db == step.db && next.queue == step.queue && next.threads[t] == step.pc
  {
    hide TailFits, CallStep, LeadsTo;
    LeadsNext(tools, p, t, q, luck);
  }

  lemma {:induction false} NewDocument(tools: Tools, p: Process, t: nat, q0: Process, parser: Option<Parser>, d: Id) returns (q: Process)
    requires TailFits(tools) && LeadsTo(tools, p, t, q0) && t in q0.threads && q0.threads[t].LoadNew? && d !in q0.db.documents
    ensures LeadsTo(tools, p, t, q) && t in q.threads && q.queue == q0.queue
    ensures match Load(q0.threads[t].content, q0.threads[t].source, parser)
            case Err(_) => q.db == q0.db && q.threads[t] == Done
            case Ok(loaded) =>
              && q.threads[t] == CreateParsed(d, loaded.text)
              && q.db == q0.db.(documents := q0.db.documents[d := Document(q0.threads[t].source, Processing, None)])
  {
    hide TailFits, LeadsTo, Next, Load, ReservationStep, WorkerStep, ChunkStep;
    LeadsOn(tools, p, t, q0, PLAIN.(parser := parser));
    q := Next(tools, q0, Go(t, PLAIN.(parser := parser)));
    if q.threads[t].CreateDocument? {
      LeadsOn(tools, p, t, q, PLAIN.(id := d));
      q := Next(tools, q, Go(t, PLAIN.(id := d)));
    }
  }

  lemma {:induction false} NewParsed(tools: Tools, p: Process, t: nat, q0: Process, v: Id, j: Id) returns (q: Process)
    requires TailFits(tools) && LeadsTo(tools, p, t, q0) && t in q0.threads && q0.threads[t].CreateParsed?
    requires v !in q0.db.versions && j !in q0.db.jobs && q0.threads[t].document in q0.db.documents
    requires forall w :: w in q0.db.versions ==> !HasText(q0.db, w, q0.threads[t].document, q0.threads[t].text)
    ensures LeadsTo(tools, p, t, q) && t in q.threads && q.queue == q0.queue
    ensures var (d, text) := (q0.threads[t].document, q0.threads[t].text);
            && q.threads[t] == Chunking(Work(d, v, j, text), false)
            && q.db == q0.db.(versions := q0.db.versions[v := Version(d, NextNumber(q0.db, d), None, None, Some(text), Some(text))],
                              jobs := q0.db.jobs[j := Job(d, v, Running, 1, None)])
  {
    hide TailFits, LeadsTo, Next, Load, HasText, NextNumber, UploadStep, WorkerStep, ChunkStep;
    LeadsOn(tools, p, t, q0, PLAIN.(id := v));
    q := Next(tools, q0, Go(t, PLAIN.(id := v)));
    q := NewRunningJob(tools, p, t, q, j);
  }

  lemma {:induction false} NewRunningJob(tools: Tools, p: Process, t: nat, q0: Process, j: Id) returns (q: Process)
    requires TailFits(tools) && LeadsTo(tools, p, t, q0) && t in q0.threads && q0.threads[t].CreateJob? && j !in q0.db.jobs
    ensures LeadsTo(tools, p, t, q) && t in q.threads && q.queue == q0.queue
    ensures var (d, v, text) := (q0.threads[t].document, q0.threads[t].version, q0.threads[t].text);
            && q.threads[t] == Chunking(Work(d, v, j, text), false)
            && q.db == q0.db.(jobs := q0.db.jobs[j := Job(d, v, Running, 1, None)])
  {
    hide TailFits, LeadsTo, Next, Load, HasText, NextNumber, UploadStep, WorkerStep, ChunkStep;
    var (d, v) := (q0.threads[t].document, q0.threads[t].version);
    LeadsOn(tools, p, t, q0, PLAIN.(id := j));
    q := Next(tools, q0, Go(t, PLAIN.(id := j)));
    LeadsOn(tools, p, t, q, PLAIN);
    q := Next(tools, q, Go(t, PLAIN));
    assert q0.db.jobs[j := Job(d, v, Queued, 0, None)][j := Job(d, v, Running, 1, None)] == q0.db.jobs[j := Job(d, v, Running, 1, None)];
  }

  lemma NothingYet(tools: Tools, db: Db, d: Id)
    requires TailFits(tools) && RowsFit(tools, db) && d !in db.documents
    ensures forall w :: w in db.versions ==> db.versions[w].document != d
  {
    hide TailFits, ActiveFits, IsStaged, IsParsed;
  }

  lemma FirstNumber(db: Db, db': Db, d: Id)
    requires db'.versions == db.versions && forall w :: w in db.versions ==> db.versions[w].document != d
    ensures NextNumber(db', d) == 1
    ensures forall w, text :: w in db.versions ==> !HasText(db', w, d, text)
    ensures forall w, content :: w in db.versions ==> !HasSource(db', w, d, content)
  {
    assert VersionNumbers(db', d) == {};
  }

  /** At most 2 MiB, and a text with something in it, or bytes other than ASCII white space for the
      parsing service. */
  predicate IsUploadable(content: Bytes, source: SourceType) {
    && content.Size() <= 2097152
    && match source
       case Markdown => content.Utf8? && exists i :: 0 <= i < |content.text| && !IsSpace(content.text[i])
       case PlainText => content.Utf8? && exists i :: 0 <= i < |content.text| && !IsSpace(content.text[i])
       case _ => content.Utf8? ==> exists i :: 0 <= i < |content.text| && content.text[i] !in " \t\n\r\U{000b}\U{000c}"
  }

  lemma UploadableIff(content: Bytes, source: SourceType)
    ensures IsUploadable(content, source) <==> ValidUpload(content, source)
  {
    hide Utf8Size;
    if content.Utf8? && !BlankBytes(content) {
      var c :| c in content.text && c !in " \t\n\r\U{000b}\U{000c}";
      var i :| 0 <= i < |content.text| && content.text[i] == c;
    }
  }

  /** A new upload for the worker that nothing disturbs: one over 2 MiB, a blank one, or one that
      should be a text and is not, writes nothing; any other leaves a new document with a first
      version that holds the bytes, a queued job, the job in the queue, and a receipt. */
  lemma {:induction false} NewUploadQueues(tools: Tools, p: Process, t: nat, source: SourceType, content: Bytes, d: Id, v: Id, j: Id)
    returns (q: Process)
    requires TailFits(tools) && Reachable(tools, p) && t !in p.threads && d !in p.db.documents && v !in p.db.versions && j !in p.db.jobs
    ensures LeadsTo(tools, Next(tools, p, Upload(t, source, content, true)), t, q) && t in q.threads
    ensures if !IsUploadable(content, source) then q.db == p.db && q.queue == p.queue && q.threads[t] == Done
            else
              && q.queue == p.queue + {j} && q.threads[t] == Answered(v, Some(j), false)
              && q.db == p.db.(documents := p.db.documents[d := Document(source, Processing, None)],
                               versions := p.db.versions[v := Version(d, 1, Some(content), Some(content), None, None)],
                               jobs := p.db.jobs[j := Job(d, v, Queued, 0, None)])
  {
    hide TailFits, Reachable, LeadsTo, Next, NextNumber, HasSource, RowsFit, ValidUpload, IsUploadable, ThreadsFit, AllApart;
    ReachableIsSafe(tools, p);
    NothingYet(tools, p.db, d);
    UploadableIff(content, source);
    q := QueuedUploadStarts(tools, p, t, source, content);
    var start := q;
    LeadsNowhere(tools, start, t);
    q := NewQueuedDocument(tools, start, t, q, d);
    if IsUploadable(content, source) {
      FirstNumber(p.db, q.db, d);
      q := NewReservation(tools, start, t, q, v, j);
    }
  }

  lemma QueuedUploadStarts(tools: Tools, p: Process, t: nat, source: SourceType, content: Bytes) returns (start: Process)
    requires TailFits(tools) && t !in p.threads
    ensures start == Next(tools, p, Upload(t, source, content, true)) && start.db == p.db && start.queue == p.queue
    ensures t in start.threads && start.threads[t] == Validate(source, content)
  {
    hide TailFits, CallStep;
    start := Next(tools, p, Upload(t, source, content, true));
  }

  lemma {:induction false} NewQueuedDocument(tools: Tools, p: Process, t: nat, q0: Process, d: Id) returns (q: Process)
    requires TailFits(tools) && LeadsTo(tools, p, t, q0) && t in q0.threads && q0.threads[t].Validate? && d !in q0.db.documents
    ensures LeadsTo(tools, p, t, q) && t in q.threads && q.queue == q0.queue
    ensures if !ValidUpload(q0.threads[t].content, q0.threads[t].source) then q.db == q0.db && q.threads[t] == Done
            else
              && q.threads[t] == Reserve(d, q0.threads[t].content)
              && q.db == q0.db.(documents := q0.db.documents[d := Document(q0.threads[t].source, Processing, None)])
  {
    hide TailFits, LeadsTo, Next, Load, ValidUpload, NextNumber, UploadStep, WorkerStep, ChunkStep;
    LeadsOn(tools, p, t, q0, PLAIN);
    q := Next(tools, q0, Go(t, PLAIN));
    if q.threads[t].QueueDocument? {
      LeadsOn(tools, p, t, q, PLAIN.(id := d));
      q := Next(tools, q, Go(t, PLAIN.(id := d)));
    }
  }

  lemma {:induction false} NewReservation(tools: Tools, p: Process, t: nat, q0: Process, v: Id, j: Id) returns (q: Process)
    requires TailFits(tools) && LeadsTo(tools, p, t, q0) && t in q0.threads && q0.threads[t].Reserve?
    requires v !in q0.db.versions && j !in q0.db.jobs && q0.threads[t].document in q0.db.documents
    requires forall w :: w in q0.db.versions ==> !HasSource(q0.db, w, q0.threads[t].document, q0.threads[t].content)
    ensures LeadsTo(tools, p, t, q) && t in q.threads && q.queue == q0.queue + {j}
    ensures var (d, content) := (q0.threads[t].document, q0.threads[t].content);
            && q.threads[t] == Answered(v, Some(j), false)
            && q.db == q0.db.(versions := q0.db.versions[v := Version(d, NextNumber(q0.db, d), Some(content), Some(content), None, None)],
                              jobs := q0.db.jobs[j := Job(d, v, Queued, 0, None)])
  {
    hide TailFits, LeadsTo, Next, Load, ValidUpload, HasSource, NextNumber, UploadStep, WorkerStep, ChunkStep;
    LeadsOn(tools, p, t, q0, PLAIN.(id := v));
    q := Next(tools, q0, Go(t, PLAIN.(id := v)));
    q := NewJob(tools, p, t, q, j);
  }

  lemma {:induction false} NewJob(tools: Tools, p: Process, t: nat, q0: Process, j: Id) returns (q: Process)
    requires TailFits(tools) && LeadsTo(tools, p, t, q0) && t in q0.threads && q0.threads[t].QueueJob? && j !in q0.db.jobs
    ensures LeadsTo(tools, p, t, q) && t in q.threads && q.queue == q0.queue + {j}
    ensures var (d, v) := (q0.threads[t].document, q0.threads[t].version);
            q.threads[t] == Answered(v, Some(j), false) && q.db == q0.db.(jobs := q0.db.jobs[j := Job(d, v, Queued, 0, None)])
  {
    hide TailFits, LeadsTo, Next, Load, ValidUpload, HasSource, NextNumber, UploadStep, WorkerStep, ChunkStep;
    LeadsOn(tools, p, t, q0, PLAIN.(id := j));
    q := Next(tools, q0, Go(t, PLAIN.(id := j)));
    LeadsOn(tools, p, t, q, PLAIN);
    q := Next(tools, q, Go(t, PLAIN));
  }

  // ---- A further upload ---------------------------------------------------------------------------------------

  /** An upload to a document that is not there or of another type ends at once and writes nothing; so
      does one for the worker that is not uploadable. */
  lemma FurtherUploadRefused(tools: Tools, p: Process, t: nat, d: Id, source: SourceType, content: Bytes, queued: bool, luck: Luck)
    requires TailFits(tools) && t !in p.threads
    requires d !in p.db.documents || p.db.documents[d].source != source || (queued && !IsUploadable(content, source))
    ensures var q := Next(tools, Next(tools, p, UploadVersion(t, d, source, content, queued)), Go(t, luck));
            q.db == p.db && q.queue == p.queue && t in q.threads && q.threads[t] == Done
  {
    hide TailFits, ReservationStep, WorkerStep, ChunkStep, IsUploadable, ValidUpload;
    UploadableIff(content, source);
  }

  /** The version a further upload in the request starts from: past the bytes, at its text. */
  lemma {:induction false} FurtherUploadLoads(tools: Tools, p: Process, t: nat, d: Id, content: Bytes, parser: Option<Parser>)
    returns (start: Process, q: Process)
    requires TailFits(tools) && t !in p.threads && d in p.db.documents && !HasBytes(p.db, d, content)
    requires Load(content, p.db.documents[d].source, parser).Ok?
    ensures start == Next(tools, p, UploadVersion(t, d, p.db.documents[d].source, content, false)) && LeadsTo(tools, start, t, q)
    ensures q.db == p.db && q.queue == p.queue && t in q.threads
    ensures q.threads[t] == CheckText(d, Load(content, p.db.documents[d].source, parser).value.text)
  {
    hide TailFits, LeadsTo, Next, Load, HasBytes, ValidUpload;
    start := FurtherUploadStarts(tools, p, t, d, content);
    LeadsNowhere(tools, start, t);
    q := PassesBytes(tools, start, t, d, content);
    q := LoadsMore(tools, start, t, q, parser);
  }

  lemma FurtherUploadStarts(tools: Tools, p: Process, t: nat, d: Id, content: Bytes) returns (start: Process)
    requires TailFits(tools) && t !in p.threads && d in p.db.documents
    ensures start == Next(tools, p, UploadVersion(t, d, p.db.documents[d].source, content, false)) && start.db == p.db && start.queue == p.queue
    ensures t in start.threads && start.threads[t] == CheckDocument(d, p.db.documents[d].source, content, false)
  {
    hide TailFits, CallStep;
    start := Next(tools, p, UploadVersion(t, d, p.db.documents[d].source, content, false));
  }

  lemma {:induction false} PassesBytes(tools: Tools, p: Process, t: nat, d: Id, content: Bytes) returns (q: Process)
    requires TailFits(tools) && t in p.threads && d in p.db.documents && !HasBytes(p.db, d, content)
    requires p.threads[t] == CheckDocument(d, p.db.documents[d].source, content, false)
    ensures LeadsTo(tools, p, t, q) && q.db == p.db && q.queue == p.queue && t in q.threads && q.threads[t] == LoadMore(d, content)
  {
    hide TailFits, LeadsTo, Next, Load, HasSource, ValidUpload, ReservationStep, WorkerStep, ChunkStep;
    LeadsNowhere(tools, p, t);
    LeadsOn(tools, p, t, p, PLAIN);
    q := Next(tools, p, Go(t, PLAIN));
    LeadsOn(tools, p, t, q, PLAIN);
    q := Next(tools, q, Go(t, PLAIN));
  }

  lemma {:induction false} LoadsMore(tools: Tools, p: Process, t: nat, q0: Process, parser: Option<Parser>) returns (q: Process)
    requires TailFits(tools) && LeadsTo(tools, p, t, q0) && t in q0.threads && q0.threads[t].LoadMore? && q0.threads[t].document in q0.db.documents
    requires Load(q0.threads[t].content, q0.db.documents[q0.threads[t].document].source, parser).Ok?
    ensures LeadsTo(tools, p, t, q) && q.db == q0.db && q.queue == q0.queue && t in q.threads
    ensures q.threads[t] == CheckText(q0.threads[t].document, Load(q0.threads[t].content, q0.db.documents[q0.threads[t].document].source, parser).value.text)
  {
    hide TailFits, LeadsTo, Next, Load, UploadStep, WorkerStep, ChunkStep;
    LeadsOn(tools, p, t, q0, PLAIN.(parser := parser));
    q := Next(tools, q0, Go(t, PLAIN.(parser := parser)));
  }

  /** New bytes with a new text: a further version with the next number, under a running job, at its
      pipeline. */
  lemma {:induction false} FurtherUploadRuns(tools: Tools, p: Process, t: nat, d: Id, content: Bytes, parser: Option<Parser>, v: Id, j: Id)
    returns (n: nat, q: Process)
    requires TailFits(tools) && t !in p.threads && d in p.db.documents && v !in p.db.versions && j !in p.db.jobs && !HasBytes(p.db, d, content)
    requires Load(content, p.db.documents[d].source, parser).Ok?
    requires !IsTextOf(p.db, d, Load(content, p.db.documents[d].source, parser).value.text)
    ensures LeadsTo(tools, Next(tools, p, UploadVersion(t, d, p.db.documents[d].source, content, false)), t, q) && t in q.threads
    ensures IsNextNumber(p.db, d, n)
    ensures var text := Load(content, p.db.documents[d].source, parser).value.text;
            && q.threads[t] == Chunking(Work(d, v, j, text), false)
            && q.db == p.db.(versions := p.db.versions[v := Version(d, n, None, None, Some(text), Some(text))],
                             jobs := p.db.jobs[j := Job(d, v, Running, 1, None)])
  {
    hide TailFits, LeadsTo, Next, Load, HasBytes, HasText, NextNumber, IsNextNumber, IsTextOf;
    var start, checking := FurtherUploadLoads(tools, p, t, d, content, parser);
    NoText(p.db, checking.db, d, checking.threads[t].text);
    NextIs(p.db, d);
    n := NextNumber(p.db, d);
    q := PassesText(tools, start, t, checking);
    q := NewParsed(tools, start, t, q, v, j);
  }

  predicate IsTextOf(db: Db, d: Id, text: string) {
    exists v :: v in db.versions && db.versions[v].document == d && db.versions[v].contentHash == Some(text)
  }

  lemma NoText(db: Db, db': Db, d: Id, text: string)
    requires db' == db && !IsTextOf(db, d, text)
    ensures forall v :: v in db'.versions ==> !HasText(db', v, d, text)
  {
  }

  /** Greater than every number of the document, and than none of them needlessly. */
  ghost predicate IsNextNumber(db: Db, d: Id, n: nat) {
    && n >= 1
    && (forall v :: v in db.versions && db.versions[v].document == d ==> db.versions[v].number < n)
    && (n == 1 || exists v :: v in db.versions && db.versions[v].document == d && db.versions[v].number == n - 1)
  }

  lemma NextIs(db: Db, d: Id)
    ensures IsNextNumber(db, d, NextNumber(db, d))
  {
    NextIsNew(db, d);
    if NextNumber(db, d) > 1 {
      var v := GreatestVersion(db, d);
    }
  }

  lemma {:induction false} PassesText(tools: Tools, p: Process, t: nat, q0: Process) returns (q: Process)
    requires TailFits(tools) && LeadsTo(tools, p, t, q0) && t in q0.threads && q0.threads[t].CheckText?
    requires forall v :: v in q0.db.versions ==> !HasText(q0.db, v, q0.threads[t].document, q0.threads[t].text)
    ensures LeadsTo(tools, p, t, q) && q.db == q0.db && q.queue == q0.queue && t in q.threads
    ensures q.threads[t] == CreateParsed(q0.threads[t].document, q0.threads[t].text)
  {
    hide TailFits, LeadsTo, Next, Load, HasText, UploadStep, WorkerStep, ChunkStep;
    LeadsOn(tools, p, t, q0, PLAIN);
    q := Next(tools, q0, Go(t, PLAIN));
  }

  /** A call that finds its text in a version of the document, before or while it inserts its own: if
      the newest job of that version has succeeded the call is answered with it and writes nothing;
      otherwise it goes on, to insert, or to a job of its own over that version. */
  lemma SameTextStep(tools: Tools, p: Process, t: nat, luck: Luck)
    requires TailFits(tools) && t in p.threads && (p.threads[t].CheckTextJob? || p.threads[t].Reuse?)
    requires IsLatest(p.db, p.threads[t].existing, luck.latest)
    ensures var (pc, q) := (p.threads[t], Next(tools, p, Go(t, luck)));
            && q.db == p.db && q.queue == p.queue && t in q.threads
            && if luck.latest.Some? && luck.latest.value in p.db.jobs && p.db.jobs[luck.latest.value].status == Succeeded then
                 q.threads[t] == Answered(pc.existing, luck.latest, true)
               else q.threads[t] == if pc.CheckTextJob? then CreateParsed(pc.document, pc.text) else CreateJob(pc.document, pc.existing, pc.text)
  {
    hide TailFits, UploadStep, WorkerStep, ChunkStep;
  }

  /** A call that finds its bytes in a version of the document is answered with that version's newest
      job, unless that has failed: then it goes on to reserve or to load, writing nothing at this step. */
  lemma SameBytesStep(tools: Tools, p: Process, t: nat, luck: Luck)
    requires TailFits(tools) && t in p.threads && p.threads[t].CheckSourceJob? && IsLatest(p.db, p.threads[t].existing, luck.latest)
    ensures var (pc, q) := (p.threads[t], Next(tools, p, Go(t, luck)));
            && q.db == p.db && q.queue == p.queue && t in q.threads
            && q.threads[t] ==
               if luck.latest.Some? && luck.latest.value in p.db.jobs && p.db.jobs[luck.latest.value].status == FailedJob then
                 if pc.queued then Reserve(pc.document, pc.content) else LoadMore(pc.document, pc.content)
               else Answered(pc.existing, luck.latest, true)
  {
    hide TailFits, ReservationStep, WorkerStep, ChunkStep;
  }
}
