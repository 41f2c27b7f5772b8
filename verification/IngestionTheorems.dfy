/** What ingestion promises in every reachable state, including after crashes. */
module IngestionTheorems {
  import opened Outcomes
  import opened DocumentLoader
  import opened Chunking
  import opened LosslessChunking
  import opened IngestionMachine
  import opened IngestionSafety
  import opened IngestionSteps

  // ---- The other calls ---------------------------------------------------------------------

  /** A call that has reserved or is parsing a version is the only one that changes it. */
  predicate NeedsStaged(pc: Pc) {
    pc.QueueJob? || pc.ReadBytes? || pc.Parse? || pc.Backfill?
  }

  function NeededVersion(pc: Pc): Id
    requires NeedsStaged(pc)
  {
    if pc.Backfill? then pc.work.version else pc.version
  }

  lemma StagedStays(tools: Tools, db: Db, pc: Pc, other: Pc)
    requires TailFits(tools) && OneJobWhileStaged(db) && Apart(pc, other)
    requires PcFits(tools, db, pc) && PcFits(tools, db, other) && NeedsStaged(other)
    ensures !(pc.Backfill? && pc.work.version == NeededVersion(other))
  {
    hide TailFits, IsStaged;
  }

  lemma OtherFits(tools: Tools, s: State, s': State, other: Pc)
    requires TailFits(tools) && StateFits(tools, s) && StepFits(tools, s, s')
    requires PcFits(tools, s.db, other) && Apart(s.pc, other)
    ensures PcFits(tools, s'.db, other)
  {
    hide TailFits, IsParsed, ActiveFits, OwnFits, MovesOn, ChunksOf, Stored, Pointed, QueueFits;
    if NeedsStaged(other) {
      StagedStays(tools, s.db, s.pc, other);
      StagedOtherFits(tools, s, s', other);
    } else if other.Upserting? || other.Activating? {
      StoredKept(tools, s.db, s'.db, other.work.version);
      ReadyKept(tools, s.db, s'.db, other.work);
    } else {
      PlainOtherFits(tools, s, s', other);
    }
  }

  lemma ReadyKept(tools: Tools, db: Db, db': Db, work: Work)
    requires TailFits(tools) && Grows(tools, db, db') && ReadyFits(db, work)
    ensures ReadyFits(db', work)
    ensures forall chunks :: IsCanonical(tools, db, work, chunks) ==> IsCanonical(tools, db', work, chunks)
  {
    hide TailFits, Stored, ChunksOf;
  }

  lemma PlainOtherFits(tools: Tools, s: State, s': State, other: Pc)
    requires TailFits(tools) && Grows(tools, s.db, s'.db) && PcFits(tools, s.db, other)
    requires !NeedsStaged(other) && !other.Upserting? && !other.Activating?
    ensures PcFits(tools, s'.db, other)
  {
    hide TailFits, Stored, ChunksOf, Pointed, IsLoadedText;
  }

  lemma StagedOtherFits(tools: Tools, s: State, s': State, other: Pc)
    requires TailFits(tools) && Grows(tools, s.db, s'.db) && LeavesOthers(s.db, s.queue, s.pc, s'.db, s'.queue)
    requires PcFits(tools, s.db, s.pc) && PcFits(tools, s.db, other) && Apart(s.pc, other) && NeedsStaged(other)
    requires !(s.pc.Backfill? && s.pc.work.version == NeededVersion(other))
    ensures PcFits(tools, s'.db, other)
  {
    hide TailFits, Stored, ChunksOf, Pointed, IsLoadedText;
  }

  lemma OtherOwnFits(tools: Tools, s: State, s': State, other: Pc)
    requires TailFits(tools) && OwnFits(s.db, s.queue, s.pc) && LeavesOthers(s.db, s.queue, s.pc, s'.db, s'.queue)
    requires OwnFits(s.db, s.queue, other) && Apart(s.pc, other)
    requires s.pc.Claim? && Owns(other) && OwnJob(other) == s.pc.job ==> s'.db == s.db
    ensures OwnFits(s'.db, s'.queue, other)
  {
    hide IsStaged;
  }

  /** A step takes no job and no version from another call. */
  lemma StaysApart(tools: Tools, s: State, s': State, other: Pc)
    requires TailFits(tools) && OwnFits(s.db, s.queue, s.pc) && MovesOn(s.db, s.pc, s'.pc)
    requires OwnFits(s.db, s.queue, other) && PcFits(tools, s.db, other) && Apart(s.pc, other)
    ensures Apart(s'.pc, other)
  {
    hide TailFits, Stored, ChunksOf, Pointed, IsStaged, IsParsed;
  }

  /** Claiming a job that another call works on does nothing: it is not queued. */
  lemma ClaimIsExclusive(tools: Tools, s: State, luck: Luck, other: Pc)
    requires TailFits(tools) && OwnFits(s.db, s.queue, s.pc) && OwnFits(s.db, s.queue, other)
    requires s.pc.Claim? && Owns(other) && OwnJob(other) == s.pc.job
    ensures CallStep(tools, s, luck).db == s.db
  {
  }

  lemma GoKeeps(tools: Tools, p: Process, t: nat, luck: Luck)
    requires TailFits(tools) && Safe(tools, p) && t in p.threads
    ensures Safe(tools, Next(tools, p, Go(t, luck)))
    ensures Grows(tools, p.db, Next(tools, p, Go(t, luck)).db)
  {
    hide TailFits, RowsFit, QueueFits, PcFits, OwnFits, Grows, CallStep, Apart, LeavesOthers, MovesOn;
    var s := State(p.db, p.queue, p.threads[t]);
    var s' := CallStep(tools, s, luck);
    CallFits(tools, s, luck);
    forall u | u in p.threads && u != t
      ensures PcFits(tools, s'.db, p.threads[u])
      ensures OwnFits(s'.db, s'.queue, p.threads[u])
      ensures Apart(s'.pc, p.threads[u]) && Apart(p.threads[u], s'.pc)
    {
      assert Apart(p.threads[t], p.threads[u]);
      OtherFits(tools, s, s', p.threads[u]);
      ClaimedElsewhere(tools, s, luck, p.threads[u]);
      OtherOwnFits(tools, s, s', p.threads[u]);
      StaysApart(tools, s, s', p.threads[u]);
      ApartSymmetric(s'.pc, p.threads[u]);
    }
  }

  lemma ClaimedElsewhere(tools: Tools, s: State, luck: Luck, other: Pc)
    requires TailFits(tools) && OwnFits(s.db, s.queue, s.pc) && OwnFits(s.db, s.queue, other)
    ensures s.pc.Claim? && Owns(other) && OwnJob(other) == s.pc.job ==> CallStep(tools, s, luck).db == s.db
  {
    hide TailFits, CallStep, OwnFits;
    if s.pc.Claim? && Owns(other) && OwnJob(other) == s.pc.job {
      ClaimIsExclusive(tools, s, luck, other);
    }
  }

  lemma ApartSymmetric(pc: Pc, other: Pc)
    ensures Apart(pc, other) <==> Apart(other, pc)
  {
  }

  // ---- The other events ---------------------------------------------------------------------------

  /** A new call: it owns nothing yet. */
  lemma StartKeeps(tools: Tools, p: Process, t: nat, pc: Pc)
    requires TailFits(tools) && Safe(tools, p) && !Owns(pc) && !pc.QueueJob?
    requires PcFits(tools, p.db, pc) && (pc.Claim? ==> pc.job in p.queue)
    ensures Safe(tools, p.(threads := p.threads[t := pc]))
  {
    hide TailFits, RowsFit, QueueFits, PcFits;
  }

  lemma StatusKeeps(tools: Tools, p: Process, d: Id, status: DocumentStatus)
    requires TailFits(tools) && Safe(tools, p) && d in p.db.documents
    ensures Safe(tools, Next(tools, p, SetStatus(d, status))) && Grows(tools, p.db, Next(tools, p, SetStatus(d, status)).db)
  {
    hide TailFits, RowsFit, PcFits, Grows, Apart;
    ChangeStatusKeeps(tools, p.db, d, status);
    var db' := p.db.(documents := p.db.documents[d := p.db.documents[d].(status := status)]);
    forall t | t in p.threads
      ensures PcFits(tools, db', p.threads[t])
    {
      StatusPcFits(tools, p.db, db', p.threads[t]);
    }
  }

  lemma StatusPcFits(tools: Tools, db: Db, db': Db, pc: Pc)
    requires TailFits(tools) && Grows(tools, db, db') && PcFits(tools, db, pc) && db'.versions == db.versions && db'.jobs == db.jobs
    ensures PcFits(tools, db', pc)
  {
    hide TailFits, Grows, PcFits;
    if pc.Upserting? || pc.Activating? {
      StoredPcFits(tools, db, db', pc);
    } else if NeedsStaged(pc) {
      StagedPcFits(tools, db, db', pc);
    } else {
      PlainOtherFits(tools, State(db, {}, Done), State(db', {}, Done), pc);
    }
  }

  lemma StoredPcFits(tools: Tools, db: Db, db': Db, pc: Pc)
    requires TailFits(tools) && Grows(tools, db, db') && PcFits(tools, db, pc) && (pc.Upserting? || pc.Activating?)
    ensures PcFits(tools, db', pc)
  {
    hide TailFits, Grows, IsLoadedText, ChunksOf, Stored, Pointed, IsStaged, ReadyFits, IsCanonical;
    StoredKept(tools, db, db', pc.work.version);
    ReadyKept(tools, db, db', pc.work);
  }

  lemma StagedPcFits(tools: Tools, db: Db, db': Db, pc: Pc)
    requires TailFits(tools) && Grows(tools, db, db') && PcFits(tools, db, pc) && NeedsStaged(pc)
    requires db'.versions == db.versions && db'.jobs == db.jobs
    ensures PcFits(tools, db', pc)
  {
    hide TailFits, IsLoadedText, ChunksOf, Stored, Pointed, IsStaged;
  }

  /** At start-up every unfinished job can be redone, and none is given up as interrupted. */
  lemma RecoveryRequeues(tools: Tools, db: Db)
    requires TailFits(tools) && RowsFit(tools, db)
    ensures forall j :: j in db.jobs && IsStale(db.jobs[j]) ==> Recovered(db).jobs[j] == db.jobs[j].(status := Queued) && j in Requeued(db)
    ensures forall j :: j in db.jobs && !IsStale(db.jobs[j]) ==> Recovered(db).jobs[j] == db.jobs[j] && j !in Requeued(db)
    ensures Recovered(db).documents == db.documents
  {
    hide TailFits, ActiveFits, OneJobWhileStaged;
    forall j | j in db.jobs && IsStale(db.jobs[j])
      ensures IsRecoverable(db, db.jobs[j])
    {
      JobHasVersion(tools, db, j);
      VersionForm(tools, db, db.jobs[j].version);
    }
  }

  lemma RecoverKeeps(tools: Tools, p: Process, accepted: set<Id>)
    requires TailFits(tools) && Safe(tools, p) && p.threads == map[]
    ensures Safe(tools, Next(tools, p, Recover(accepted))) && Grows(tools, p.db, Next(tools, p, Recover(accepted)).db)
  {
    hide TailFits, Grows, PcFits, RowsFit;
    RecoveryRequeues(tools, p.db);
    RecoveredErrors(tools, p.db);
    RecoveredRows(tools, p.db, Recovered(p.db));
  }

  lemma RecoveredErrors(tools: Tools, db: Db)
    requires TailFits(tools) && RowsFit(tools, db)
    ensures ErrorsFit(Recovered(db).jobs)
  {
    hide TailFits, ActiveFits, OneJobWhileStaged, Recovered, RecoveredJob, IsStale;
    RecoveryRequeues(tools, db);
    forall j | j in Recovered(db).jobs
      ensures Recovered(db).jobs[j].error in {None, Some(OtherFailure)}
    {
      RecoveredKeys(db);
      assert Recovered(db).jobs[j].error == db.jobs[j].error;
    }
  }

  lemma RecoveredKeys(db: Db)
    ensures Recovered(db).jobs.Keys == db.jobs.Keys
  {
  }

  lemma RecoveredRows(tools: Tools, db: Db, db': Db)
    requires TailFits(tools) && RowsFit(tools, db)
    requires db' == db.(jobs := db'.jobs) && db'.jobs.Keys == db.jobs.Keys
    requires forall j :: j in db.jobs ==> db'.jobs[j].version == db.jobs[j].version && db'.jobs[j].document == db.jobs[j].document
    requires ErrorsFit(db'.jobs)
    ensures RowsFit(tools, db') && Grows(tools, db, db')
  {
    hide TailFits, ActiveFits, Stored, IsStaged, IsParsed;
    assert Grows(tools, db, db');
    ActiveKept(tools, db, db');
    forall i, j | i in db'.jobs && j in db'.jobs && ShareStaged(db', i, j)
      ensures i == j
    {
      assert ShareStaged(db, i, j);
    }
  }

  lemma CrashKeeps(tools: Tools, p: Process)
    requires TailFits(tools) && Safe(tools, p)
    ensures Safe(tools, Process(p.db, {}, map[]))
  {
    hide TailFits, RowsFit, PcFits;
  }

  lemma NextKeeps(tools: Tools, p: Process, event: Event)
    requires TailFits(tools) && Safe(tools, p)
    ensures Safe(tools, Next(tools, p, event)) && Grows(tools, p.db, Next(tools, p, event).db)
  {
    hide TailFits, Safe, Grows, CallStep;
    GrowsReflexive(tools, p.db);
    match event
    case Upload(t, source, content, queued) =>
      if t !in p.threads {
        StartKeeps(tools, p, t, if queued then Validate(source, content) else LoadNew(source, content));
      }
    case UploadVersion(t, d, source, content, queued) =>
      if t !in p.threads {
        StartKeeps(tools, p, t, CheckDocument(d, source, content, queued));
      }
    case RunJob(t, j) =>
      if t !in p.threads && j in p.queue {
        StartKeeps(tools, p, t, Claim(j));
      }
    case Go(t, luck) =>
      if t in p.threads {
        GoKeeps(tools, p, t, luck);
      }
    case Vanish(t) =>
      if t in p.threads {
        StartKeeps(tools, p, t, Done);
      }
    case SetStatus(d, status) =>
      if d in p.db.documents {
        StatusKeeps(tools, p, d, status);
      }
    case Crash => CrashKeeps(tools, p);
    case Recover(accepted) =>
      if p.threads == map[] {
        RecoverKeeps(tools, p, accepted);
      }
  }

  lemma {:induction false} PlayKeeps(tools: Tools, p: Process, events: seq<Event>)
    requires TailFits(tools) && Safe(tools, p)
    ensures Safe(tools, Play(tools, p, events)) && Grows(tools, p.db, Play(tools, p, events).db)
  {
    hide TailFits, Safe, Grows, Next;
    if events == [] {
      GrowsReflexive(tools, p.db);
    } else {
      var before := Play(tools, p, events[..|events| - 1]);
      PlayKeeps(tools, p, events[..|events| - 1]);
      NextKeeps(tools, before, events[|events| - 1]);
      GrowsTransitive(tools, p.db, before.db, Play(tools, p, events).db);
    }
  }

  lemma ReachableIsSafe(tools: Tools, p: Process)
    requires TailFits(tools) && Reachable(tools, p)
    ensures Safe(tools, p)
  {
    hide Play;
    var events :| p == Play(tools, EMPTY, events);
    assert Safe(tools, EMPTY);
    PlayKeeps(tools, EMPTY, events);
  }

  // ---- The promises ----------------------------------------------------------------------------------

  /** In every reachable state every version holds its staged upload or its parsed text, and
      exactly one of them. */
  lemma StagedOrParsed(tools: Tools, p: Process, v: Id)
    requires TailFits(tools) && Reachable(tools, p) && v in p.db.versions
    ensures var row := p.db.versions[v];
            && (row.rawBytes.Some? <==> row.rawText.None?)
            && row.contentHash == row.rawText
  {
    hide TailFits, Reachable, ActiveFits, PcFits, OwnFits, AllApart;
    ReachableIsSafe(tools, p);
  }

  /** So recovery after a crash sets every job that had not ended back to queued, returns exactly
      those to be handed to the worker, gives none up as interrupted, and leaves the documents
      alone; the worker's queue holds those of them that it accepts. */
  lemma RestartRequeuesEverything(tools: Tools, p: Process, accepted: set<Id>)
    requires TailFits(tools) && Reachable(tools, p)
    ensures Requeued(p.db) == set j | j in p.db.jobs && IsStale(p.db.jobs[j])
    ensures var restarted := Next(tools, Next(tools, p, Crash), Recover(accepted));
            && restarted.queue == accepted * Requeued(p.db)
            && restarted.db.documents == p.db.documents && restarted.db.versions == p.db.versions
            && restarted.db.jobs.Keys == p.db.jobs.Keys
            && forall j :: j in p.db.jobs ==>
                 restarted.db.jobs[j] == if IsStale(p.db.jobs[j]) then p.db.jobs[j].(status := Queued) else p.db.jobs[j]
  {
    hide TailFits, Reachable, PcFits, OwnFits, AllApart, RowsFit;
    ReachableIsSafe(tools, p);
    RecoveryRequeues(tools, p.db);
  }

  /** No job of any reachable state has failed as interrupted or for a missing upload. */
  lemma NoJobLosesItsSource(tools: Tools, p: Process, j: Id)
    requires TailFits(tools) && Reachable(tools, p) && j in p.db.jobs
    ensures p.db.jobs[j].error != Some(Interrupted) && p.db.jobs[j].error != Some(SourceMissing)
  {
    hide TailFits, Reachable, RowsFit, PcFits, OwnFits, AllApart, QueueFits;
    ReachableIsSafe(tools, p);
    JobError(tools, p.db, j);
  }

  /** The versions of a document are numbered from 1 upwards without gap or repetition. */
  lemma VersionNumberingHolds(tools: Tools, p: Process, v: Id, w: Id, n: nat)
    requires TailFits(tools) && Reachable(tools, p) && v in p.db.versions && w in p.db.versions
    requires p.db.versions[v].document == p.db.versions[w].document
    ensures p.db.versions[v].number == p.db.versions[w].number ==> v == w
    ensures 1 <= p.db.versions[v].number
    ensures 1 <= n <= p.db.versions[v].number ==> n in VersionNumbers(p.db, p.db.versions[v].document)
  {
    hide TailFits, Reachable, PcFits, OwnFits, AllApart, QueueFits, ActiveFits;
    ReachableIsSafe(tools, p);
    assert p.db.versions[v].number == p.db.versions[w].number ==> SameNumber(p.db.versions[v], p.db.versions[w]);
    if 1 <= n <= p.db.versions[v].number {
      NumbersBelow(p.db, v, n);
    }
  }

  lemma {:induction false} NumbersBelow(db: Db, v: Id, n: nat)
    requires Numbered(db.versions) && v in db.versions && 1 <= n <= db.versions[v].number
    ensures n in VersionNumbers(db, db.versions[v].document)
    decreases db.versions[v].number
  {
    if n < db.versions[v].number {
      var u :| u in db.versions && db.versions[u].document == db.versions[v].document && db.versions[u].number == db.versions[v].number - 1;
      NumbersBelow(db, u, n);
    } else {
      assert db.versions[v].number in VersionNumbers(db, db.versions[v].document);
    }
  }

  /** No call ever finds the upload of its version missing. */
  lemma SourceIsNeverMissing(tools: Tools, p: Process, t: nat)
    requires TailFits(tools) && Reachable(tools, p) && t in p.threads
    ensures p.threads[t].ReadBytes? ==> p.threads[t].version in p.db.versions && p.db.versions[p.threads[t].version].rawBytes.Some?
    ensures p.threads[t].Failing? ==> p.threads[t].error == OtherFailure
  {
    hide TailFits, Reachable, RowsFit, OwnFits, AllApart;
    ReachableIsSafe(tools, p);
    assert PcFits(tools, p.db, p.threads[t]);
  }

  /** A version is parsed at most once: a call that is about to parse works on a version
      without text, nobody else is parsing that version, and its text never changes. */
  lemma ParsedOnce(tools: Tools, p: Process, t: nat, u: nat)
    requires TailFits(tools) && Reachable(tools, p) && t in p.threads && u in p.threads
    requires p.threads[t].Parse? && p.threads[u].Parse? && p.threads[t].version == p.threads[u].version
    ensures t == u
    ensures p.threads[t].version in p.db.versions && p.db.versions[p.threads[t].version].rawText.None?
  {
    hide TailFits, Reachable, ActiveFits, OwnFits, QueueFits;
    ReachableIsSafe(tools, p);
    var pc, other := p.threads[t], p.threads[u];
    assert PcFits(tools, p.db, pc) && PcFits(tools, p.db, other);
    assert ShareStaged(p.db, pc.job, other.job);
    assert t != u ==> Apart(pc, other);
  }

  lemma {:induction false} TextNeverChanges(tools: Tools, p: Process, events: seq<Event>, v: Id)
    requires TailFits(tools) && Reachable(tools, p) && v in p.db.versions && p.db.versions[v].rawText.Some?
    ensures var later := Play(tools, p, events); v in later.db.versions && later.db.versions[v] == p.db.versions[v]
  {
    hide TailFits, Reachable, Play, ActiveFits, PcFits, OwnFits, AllApart;
    ReachableIsSafe(tools, p);
    PlayKeeps(tools, p, events);
    TextKept(tools, p.db, Play(tools, p, events).db, v);
  }

  lemma TextKept(tools: Tools, db: Db, db': Db, v: Id)
    requires TailFits(tools) && RowsFit(tools, db) && Grows(tools, db, db') && v in db.versions && db.versions[v].rawText.Some?
    ensures v in db'.versions && db'.versions[v] == db.versions[v]
  {
    hide TailFits, ActiveFits, Stored;
  }

  /** In every reachable state, whatever crashed or failed on the way: the active version of a
      document has its text, exactly the chunks that the chunker makes of that text, and a
      vector point for every one of them. */
  lemma ActiveIsComplete(tools: Tools, p: Process, d: Id)
    requires TailFits(tools) && Reachable(tools, p) && d in p.db.documents && p.db.documents[d].active.Some?
    ensures var v, db := p.db.documents[d].active.value, p.db;
            && v in db.versions && db.versions[v].document == d && db.versions[v].rawText.Some?
            && v in db.chunks
            && ChunksOf(tools, db.versions[v].rawText.value, db.documents[d].source) == Ok(db.chunks[v])
            && forall i :: 0 <= i < |db.chunks[v]| ==> Point(v, db.chunks[v][i].ordinal) in db.points
  {
    hide TailFits, Reachable, ChunksOf, PcFits, OwnFits, AllApart, QueueFits;
    ReachableIsSafe(tools, p);
    var v := p.db.documents[d].active.value;
    assert IsVersionOf(p.db, v, d) && Stored(tools, p.db, v) && Pointed(p.db, v);
    forall i | 0 <= i < |p.db.chunks[v]|
      ensures Point(v, p.db.chunks[v][i].ordinal) in p.db.points
    {
      assert Point(v, p.db.chunks[v][i].ordinal) in Points(v, p.db.chunks[v]);
    }
  }

  /** What search may return: the active versions of active documents. */
  function ActiveVersions(db: Db): set<Id> {
    set d | d in db.documents && db.documents[d].status == Active && db.documents[d].active.Some? :: db.documents[d].active.value
  }

  predicate SameActive(db: Db, db': Db) {
    && (forall d :: d in db.documents ==>
          d in db'.documents && db'.documents[d].active == db.documents[d].active
          && (db.documents[d].active.Some? ==> db'.documents[d].status == db.documents[d].status))
    && (forall d :: d in db'.documents && d !in db.documents ==> db'.documents[d].active.None?)
  }

  /** Only activation changes what is searchable: every other step of every call, every
      failure, crash and restart leaves the active versions as they are. */
  lemma OnlyActivationShows(tools: Tools, p: Process, event: Event)
    requires TailFits(tools) && Reachable(tools, p) && !event.SetStatus?
    requires event.Go? && event.thread in p.threads ==> !p.threads[event.thread].Activating?
    ensures ActiveVersions(Next(tools, p, event).db) == ActiveVersions(p.db)
  {
    hide TailFits, Reachable, PcFits, OwnFits, AllApart, RowsFit, CallStep, SameActive, ActiveVersions;
    SameActiveVersions(p.db, p.db);
    match event
    case Go(t, luck) =>
      if t in p.threads {
        StepShowsNothing(tools, State(p.db, p.queue, p.threads[t]), luck);
        SameActiveVersions(p.db, Next(tools, p, event).db);
      }
    case Recover(accepted) =>
      ReachableIsSafe(tools, p);
      RecoveryRequeues(tools, p.db);
      SameDocumentsShow(p.db, Next(tools, p, event).db);
    case _ =>
  }

  lemma SameDocumentsShow(db: Db, db': Db)
    requires db'.documents == db.documents
    ensures ActiveVersions(db') == ActiveVersions(db)
  {
  }

  lemma SameActiveVersions(db: Db, db': Db)
    ensures SameActive(db, db') ==> ActiveVersions(db') == ActiveVersions(db)
  {
    if SameActive(db, db') {
      forall v | v in ActiveVersions(db)
        ensures v in ActiveVersions(db')
      {
        var d :| d in db.documents && db.documents[d].status == Active && db.documents[d].active == Some(v);
        assert db'.documents[d].active == Some(v);
      }
      forall v | v in ActiveVersions(db')
        ensures v in ActiveVersions(db)
      {
        var d :| d in db'.documents && db'.documents[d].status == Active && db'.documents[d].active == Some(v);
        assert d in db.documents && db.documents[d].active == Some(v);
      }
    }
  }

  lemma StepShowsNothing(tools: Tools, s: State, luck: Luck)
    requires TailFits(tools) && !s.pc.Activating?
    ensures SameActive(s.db, CallStep(tools, s, luck).db)
  {
    hide TailFits, UploadStep, ReservationStep, WorkerStep, ChunkStep, SameActive;
    if IsUpload(s.pc) {
      UploadShowsNothing(s, luck);
    } else if IsPipeline(s.pc) {
      PipelineShowsNothing(tools, s, luck);
    } else if IsWorker(s.pc) {
      WorkerShowsNothing(s, luck);
    } else {
      ReservationShowsNothing(s, luck);
    }
  }

  lemma UploadShowsNothing(s: State, luck: Luck)
    ensures SameActive(s.db, UploadStep(s, luck).db)
  {
    hide Load;
  }

  lemma ReservationShowsNothing(s: State, luck: Luck)
    ensures SameActive(s.db, ReservationStep(s, luck).db)
  {
    hide Load;
  }

  lemma WorkerShowsNothing(s: State, luck: Luck)
    ensures SameActive(s.db, WorkerStep(s, luck).db)
  {
    hide Load, Reload;
  }

  lemma PipelineShowsNothing(tools: Tools, s: State, luck: Luck)
    requires TailFits(tools) && !s.pc.Activating?
    ensures SameActive(s.db, ChunkStep(tools, s, luck).db)
  {
    hide TailFits, ChunksOf, Points;
  }

  // ---- Citations -----------------------------------------------------------------------------------------

  /** resolve_active_citations: the candidate chunks whose version is the active one of a
      document that is active. */
  predicate IsCitable(db: Db, v: Id, i: nat) {
    v in ActiveVersions(db) && v in db.chunks && i < |db.chunks[v]|
  }

  /** Every chunk that can be cited is, character for character, the part of its version's
      text that its offsets name. */
  lemma CitationsQuoteTheText(tools: Tools, p: Process, v: Id, i: nat)
    requires TailFits(tools) && SplitterFits(tools) && Reachable(tools, p) && IsCitable(p.db, v, i)
    ensures v in p.db.versions && p.db.versions[v].rawText.Some?
    ensures var text, chunk := p.db.versions[v].rawText.value, p.db.chunks[v][i];
            chunk.start < chunk.end <= |text| && chunk.content == text[chunk.start..chunk.end] && chunk.ordinal == i
  {
    hide TailFits, SplitterFits, Reachable, SplitDocument, IsLoadedText;
    var d :| d in p.db.documents && p.db.documents[d].active == Some(v);
    ActiveIsComplete(tools, p, d);
    ActiveTextIsLoaded(tools, p, v);
    var document := DocumentOf(p.db.versions[v].rawText.value, p.db.documents[d].source);
    DocumentIsLoaded(p.db.versions[v].rawText.value, p.db.documents[d].source);
    ChunkQuotes(document, tools, p.db.chunks[v], i);
  }

  /** The document that the pipeline chunks, made of the text and the source type alone, is the
      document that the loader made of the upload. */
  lemma PipelineChunksTheLoaded(content: Bytes, source: SourceType, parser: Option<Parser>)
    requires Load(content, source, parser).Ok?
    ensures Load(content, source, parser).value == DocumentOf(Load(content, source, parser).value.text, source)
  {
    hide SectionsOf;
  }

  lemma ActiveTextIsLoaded(tools: Tools, p: Process, v: Id)
    requires TailFits(tools) && Reachable(tools, p) && v in p.db.versions && p.db.versions[v].rawText.Some?
    ensures IsLoadedText(p.db.versions[v].rawText.value)
  {
    hide TailFits, Reachable, ActiveFits, PcFits, OwnFits, AllApart, IsLoadedText;
    ReachableIsSafe(tools, p);
  }

  lemma DocumentIsLoaded(text: string, source: SourceType)
    requires IsLoadedText(text)
    ensures LoadedBy(DocumentOf(text, source))
  {
    hide SectionsOf;
  }

  lemma ChunkQuotes(document: LoadedDocument, tools: Tools, chunks: seq<Chunk>, i: nat)
    requires TailFits(tools) && SplitterFits(tools) && LoadedBy(document) && SplitDocument(document, tools) == Ok(chunks) && i < |chunks|
    ensures var chunk := chunks[i];
            chunk.start < chunk.end <= |document.text| && chunk.content == document.text[chunk.start..chunk.end] && chunk.ordinal == i
  {
    hide TailFits, SplitterFits, SplitDocument, LoadedBy, LosslessGroups;
    var bounds, groups := SplitIsLossless(document, tools);
    assert groups[..|groups|] == groups;
    GroupsQuote(document.text, bounds, groups, |groups|, i);
  }

  lemma {:induction false} GroupsQuote(text: string, bounds: seq<Bound>, groups: seq<seq<Chunk>>, n: nat, i: nat)
    requires LosslessGroups(text, bounds, groups) && n <= |groups| && i < |Flatten(groups[..n])|
    ensures var chunk := Flatten(groups[..n])[i];
            chunk.start < chunk.end <= |text| && chunk.content == text[chunk.start..chunk.end] && chunk.ordinal == i
  {
    assert n > 0 ==> groups[..n][..n - 1] == groups[..n - 1];
    if i < |Flatten(groups[..n - 1])| {
      GroupsQuote(text, bounds, groups, n - 1, i);
    } else {
      var before := |Flatten(groups[..n - 1])|;
      assert Lossless(text, bounds[n - 1], before, groups[n - 1]);
      assert IsSliceOf(text, bounds[n - 1], before + (i - before), groups[n - 1][i - before]);
    }
  }
}
