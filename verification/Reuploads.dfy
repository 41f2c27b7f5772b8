/** Uploading the same bytes to a document again, under any interleaving: what the queued route
    and the synchronous route make of bytes that some version of the document already has, also
    when the job of that version has failed. */
module Reuploads {
  import opened Outcomes
  import opened DocumentLoader
  import opened Chunking
  import opened IngestionMachine
  import opened IngestionSafety
  import opened IngestionTheorems

  /** Some version of the document was uploaded as these bytes. */
  predicate HasBytes(db: Db, d: Id, content: Bytes) {
    exists v :: v in db.versions && HasSource(db, v, d, content)
  }

  lemma BytesKept(tools: Tools, db: Db, db': Db, d: Id, content: Bytes)
    requires TailFits(tools) && Grows(tools, db, db') && HasBytes(db, d, content)
    ensures HasBytes(db', d, content)
  {
    hide TailFits, Stored, IsParsed;
    var v :| v in db.versions && HasSource(db, v, d, content);
    assert HasSource(db', v, d, content);
  }

  /** Events that do not concern a call: anything but its own steps, its interruption, and the end
      of the process. */
  predicate Elsewhere(events: seq<Event>, t: nat) {
    forall i :: 0 <= i < |events| ==>
      !events[i].Crash? && (events[i].Go? || events[i].Vanish? ==> events[i].thread != t)
  }

  lemma NextElsewhere(tools: Tools, p: Process, event: Event, t: nat)
    requires TailFits(tools) && t in p.threads && Elsewhere([event], t)
    ensures t in Next(tools, p, event).threads && Next(tools, p, event).threads[t] == p.threads[t]
  {
    hide CallStep, TailFits, Recovered, Requeued;
    assert [event][0] == event;
  }

  lemma {:induction false} PlayElsewhere(tools: Tools, p: Process, events: seq<Event>, t: nat)
    requires TailFits(tools) && t in p.threads && Elsewhere(events, t)
    ensures var later := Play(tools, p, events); t in later.threads && later.threads[t] == p.threads[t]
    decreases |events|
  {
    hide Next, TailFits;
    if events != [] {
      var init, last := events[..|events| - 1], events[|events| - 1];
      PlayElsewhere(tools, p, init, t);
      NextElsewhere(tools, Play(tools, p, init), last, t);
    }
  }

  lemma ReachableNext(tools: Tools, p: Process, event: Event)
    requires TailFits(tools) && Reachable(tools, p)
    ensures Reachable(tools, Next(tools, p, event))
  {
    hide Next, TailFits;
    var events :| p == Play(tools, EMPTY, events);
    assert (events + [event])[..|events|] == events;
    assert Next(tools, p, event) == Play(tools, EMPTY, events + [event]);
  }

  // ---- The queued route ------------------------------------------------------------------------------

  /** Reserving: a queued upload inserts a version if and only if no version of the document has
      its bytes at that moment; otherwise it changes nothing and adopts one that has them. */
  lemma ReservesIff(tools: Tools, p: Process, t: nat, luck: Luck)
    requires TailFits(tools) && Reachable(tools, p) && t in p.threads && p.threads[t].Reserve? && luck.id !in p.db.versions
    ensures var (d, content, next) := (p.threads[t].document, p.threads[t].content, Next(tools, p, Go(t, luck)));
            && (next.threads[t] == QueueJob(d, luck.id) <==> !HasBytes(p.db, d, content))
            && (!HasBytes(p.db, d, content) ==> next.db == WithVersion(p.db, luck.id, StagedRow(d, NextNumber(p.db, d), content)))
            && (HasBytes(p.db, d, content) ==>
                  && next.db == p.db && next.queue == p.queue && next.threads[t].Adopt? && next.threads[t].document == d
                  && next.threads[t].existing in p.db.versions && HasSource(p.db, next.threads[t].existing, d, content))
  {
    hide TailFits, Reachable, RowsFit, OwnFits, AllApart, HasSource, NextNumber;
    ReachableIsSafe(tools, p);
    assert PcFits(tools, p.db, p.threads[t]);
  }

  /** Queueing: whatever happens elsewhere between its two transactions, a queued upload ends up
      with a queued job of a version of its own if and only if no version of the document had its
      bytes when it reserved. */
  lemma {:induction false} QueuesIff(tools: Tools, p: Process, t: nat, first: Luck, between: seq<Event>, second: Luck)
    requires TailFits(tools) && Reachable(tools, p) && t in p.threads && p.threads[t].Reserve? && first.id !in p.db.versions
    requires Elsewhere(between, t)
    requires second.id !in Play(tools, Next(tools, p, Go(t, first)), between).db.jobs
    ensures var (d, content) := (p.threads[t].document, p.threads[t].content);
            var queued := Next(tools, Play(tools, Next(tools, p, Go(t, first)), between), Go(t, second));
            second.id in queued.db.jobs && queued.db.jobs[second.id] == Job(d, first.id, Queued, 0, None) <==> !HasBytes(p.db, d, content)
  {
    hide TailFits, Reachable, HasBytes, HasSource, Play, NextNumber, Next;
    ReservesIff(tools, p, t, first);
    var reserved := Next(tools, p, Go(t, first));
    StillThere(tools, p, Go(t, first), t);
    PlayElsewhere(tools, reserved, between, t);
    JobStep(tools, Play(tools, reserved, between), t, second);
  }

  lemma StillThere(tools: Tools, p: Process, event: Event, t: nat)
    requires TailFits(tools) && t in p.threads && !event.Crash?
    ensures t in Next(tools, p, event).threads
  {
    hide CallStep, TailFits, Recovered, Requeued;
  }

  lemma JobStep(tools: Tools, p: Process, t: nat, luck: Luck)
    requires TailFits(tools) && t in p.threads && luck.id !in p.db.jobs && (p.threads[t].QueueJob? || p.threads[t].Adopt?)
    ensures var next := Next(tools, p, Go(t, luck));
            if p.threads[t].QueueJob? then
              && luck.id in next.db.jobs
              && next.db.jobs[luck.id] == Job(p.threads[t].document, p.threads[t].version, Queued, 0, None)
              && next.threads[t] == Enqueue(luck.id)
            else luck.id !in next.db.jobs && next.db == p.db
  {
    hide TailFits, IsLatest;
  }

  /** Where a queued upload of bytes that the document already has can be. */
  predicate IsReupload(db: Db, pc: Pc, d: Id, content: Bytes) {
    match pc
    case CheckDocument(e, _, c, queued) => e == d && c == content && queued
    case CheckSource(e, c, queued) => e == d && c == content && queued
    case CheckSourceJob(e, c, queued, v) => e == d && c == content && queued && v in db.versions && HasSource(db, v, d, content)
    case Reserve(e, c) => e == d && c == content
    case Adopt(e, v) => e == d && v in db.versions && HasSource(db, v, d, content)
    case Answered(v, latest, deduplicated) =>
      deduplicated && v in db.versions && HasSource(db, v, d, content) && (latest.Some? ==> latest.value in db.jobs && db.jobs[latest.value].version == v)
    case Done => true
    case _ => false
  }

  lemma ReuploadStep(tools: Tools, s: State, luck: Luck, d: Id, content: Bytes)
    requires TailFits(tools) && HasBytes(s.db, d, content) && IsReupload(s.db, s.pc, d, content)
    ensures var next := CallStep(tools, s, luck); next.db == s.db && next.queue == s.queue && IsReupload(s.db, next.pc, d, content)
  {
    hide TailFits, HasSource, NextNumber, ValidUpload, Load;
  }

  lemma ReuploadKept(tools: Tools, db: Db, db': Db, pc: Pc, d: Id, content: Bytes)
    requires TailFits(tools) && Grows(tools, db, db') && IsReupload(db, pc, d, content)
    ensures IsReupload(db', pc, d, content)
  {
    hide TailFits, Stored, IsParsed;
  }

  /** The queued route never tries a failed version again: an upload of bytes that some version of
      the document has when it starts writes nothing at any of its steps, under any interleaving and
      whatever becomes of that version's job; if it answers, its receipt is that version's, with
      one of its jobs. */
  lemma {:induction false} QueuedReuploadNeverRetries(tools: Tools, p: Process, t: nat, d: Id, source: SourceType, content: Bytes, events: seq<Event>)
    requires TailFits(tools) && Reachable(tools, p) && t !in p.threads && HasBytes(p.db, d, content)
    requires forall i :: 0 <= i < |events| ==> !events[i].Crash?
    ensures var now := Play(tools, Next(tools, p, UploadVersion(t, d, source, content, true)), events);
            && Reachable(tools, now) && t in now.threads
            && HasBytes(now.db, d, content) && IsReupload(now.db, now.threads[t], d, content)
            && forall luck :: Next(tools, now, Go(t, luck)).db == now.db && Next(tools, now, Go(t, luck)).queue == now.queue
    decreases |events|
  {
    hide TailFits, Reachable, Safe, HasBytes, IsReupload, CallStep, Grows;
    var start := Next(tools, p, UploadVersion(t, d, source, content, true));
    var now := Play(tools, start, events);
    ReachableNext(tools, p, UploadVersion(t, d, source, content, true));
    if events == [] {
      ReuploadStarts(tools, p, t, d, source, content);
    } else {
      var before, last := Play(tools, start, events[..|events| - 1]), events[|events| - 1];
      QueuedReuploadNeverRetries(tools, p, t, d, source, content, events[..|events| - 1]);
      ReachableNext(tools, before, last);
      ReuploadEvent(tools, before, last, t, d, content);
    }
    forall luck
      ensures Next(tools, now, Go(t, luck)).db == now.db && Next(tools, now, Go(t, luck)).queue == now.queue
    {
      ReuploadStep(tools, State(now.db, now.queue, now.threads[t]), luck, d, content);
    }
  }

  lemma ReuploadStarts(tools: Tools, p: Process, t: nat, d: Id, source: SourceType, content: Bytes)
    requires TailFits(tools) && t !in p.threads
    ensures var start := Next(tools, p, UploadVersion(t, d, source, content, true));
            start.db == p.db && t in start.threads && IsReupload(start.db, start.threads[t], d, content)
  {
  }

  lemma ReuploadEvent(tools: Tools, p: Process, event: Event, t: nat, d: Id, content: Bytes)
    requires TailFits(tools) && Reachable(tools, p) && t in p.threads && !event.Crash?
    requires HasBytes(p.db, d, content) && IsReupload(p.db, p.threads[t], d, content)
    ensures var next := Next(tools, p, event);
            t in next.threads && HasBytes(next.db, d, content) && IsReupload(next.db, next.threads[t], d, content)
  {
    hide TailFits, Reachable, Safe, HasBytes, IsReupload, CallStep, Grows, Recovered, Requeued;
    ReachableIsSafe(tools, p);
    NextKeeps(tools, p, event);
    var next := Next(tools, p, event);
    BytesKept(tools, p.db, next.db, d, content);
    if event.Go? && event.thread == t {
      ReuploadStep(tools, State(p.db, p.queue, p.threads[t]), event.luck, d, content);
    } else {
      DoneIsReupload(p.db, d, content);
      ReuploadKept(tools, p.db, next.db, p.threads[t], d, content);
      DoneIsReupload(next.db, d, content);
    }
  }

  lemma DoneIsReupload(db: Db, d: Id, content: Bytes)
    ensures IsReupload(db, Done, d, content)
  {
  }

  // ---- A failed upload, and its repetition -----------------------------------------------------------

  lemma Goes(tools: Tools, p: Process, t: nat, luck: Luck, q: Process)
    requires TailFits(tools) && Reachable(tools, p) && t in p.threads && t in q.threads && q.threads == p.threads[t := q.threads[t]]
    requires CallStep(tools, State(p.db, p.queue, p.threads[t]), luck) == State(q.db, q.queue, q.threads[t])
    ensures Reachable(tools, q)
  {
    hide TailFits, CallStep, Reachable;
    ReachableNext(tools, p, Go(t, luck));
  }

  const UPLOAD := NotUtf8(0, 1)

  const PLAIN := Luck(0, None, Some(0), {}, false, false)

  /** The rows of one document with one version and its job. */
  function Rows(status: DocumentStatus, job: JobStatus, attempts: nat, error: Option<FailureCode>): Db {
    Db(map[0 := Document(Pdf, status, None)], map[0 := StagedRow(0, 1, UPLOAD)], map[0 := Job(0, 0, job, attempts, error)], map[], {})
  }

  const CREATED := Db(map[0 := Document(Pdf, Processing, None)], map[], map[], map[], {})

  const RESERVED := CREATED.(versions := map[0 := StagedRow(0, 1, UPLOAD)])

  const QUEUED := Rows(Processing, Queued, 0, None)

  const FAILED := Rows(FailedDocument, FailedJob, 1, Some(OtherFailure))

  const RECEIPT := Answered(0, Some(0), false)

  lemma {:induction false} ReservedIsReachable(tools: Tools)
    requires TailFits(tools)
    ensures Reachable(tools, Process(RESERVED, {}, map[0 := QueueJob(0, 0)]))
  {
    hide TailFits, Reachable, UploadStep, WorkerStep, ChunkStep;
    EmptyIsReachable(tools);
    ReachableNext(tools, EMPTY, Upload(0, Pdf, UPLOAD, true));
    var validate := Process(EMPTY.db, {}, map[0 := Validate(Pdf, UPLOAD)]);
    assert Next(tools, EMPTY, Upload(0, Pdf, UPLOAD, true)) == validate;
    var document := Process(EMPTY.db, {}, map[0 := QueueDocument(Pdf, UPLOAD)]);
    Goes(tools, validate, 0, PLAIN, document);
    var reserve := Process(CREATED, {}, map[0 := Reserve(0, UPLOAD)]);
    Goes(tools, document, 0, PLAIN, reserve);
    assert VersionNumbers(CREATED, 0) == {} && NextNumber(CREATED, 0) == 1;
    Goes(tools, reserve, 0, PLAIN, Process(RESERVED, {}, map[0 := QueueJob(0, 0)]));
  }

  lemma EmptyIsReachable(tools: Tools)
    requires TailFits(tools)
    ensures Reachable(tools, EMPTY)
  {
    hide TailFits;
    assert EMPTY == Play(tools, EMPTY, []);
  }

  lemma {:induction false} ClaimedIsReachable(tools: Tools)
    requires TailFits(tools)
    ensures Reachable(tools, Process(Rows(Processing, Running, 1, None), {0}, map[0 := RECEIPT, 1 := ReadRows(0, 0, 0)]))
  {
    hide TailFits, Reachable, UploadStep, ChunkStep;
    ReservedIsReachable(tools);
    var job := Process(RESERVED, {}, map[0 := QueueJob(0, 0)]);
    var enqueue := Process(QUEUED, {}, map[0 := Enqueue(0)]);
    Goes(tools, job, 0, PLAIN, enqueue);
    var queued := Process(QUEUED, {0}, map[0 := RECEIPT]);
    Goes(tools, enqueue, 0, PLAIN, queued);
    ReachableNext(tools, queued, RunJob(1, 0));
    var claim := Process(QUEUED, {0}, map[0 := RECEIPT, 1 := Claim(0)]);
    assert Next(tools, queued, RunJob(1, 0)) == claim;
    Goes(tools, claim, 1, PLAIN, Process(Rows(Processing, Running, 1, None), {0}, map[0 := RECEIPT, 1 := ReadRows(0, 0, 0)]));
  }

  lemma {:induction false} ParsingIsReachable(tools: Tools)
    requires TailFits(tools)
    ensures Reachable(tools, Process(Rows(Processing, Running, 1, None), {0}, map[0 := RECEIPT, 1 := Parse(0, 0, 0, UPLOAD)]))
  {
    hide TailFits, Reachable, UploadStep, ReservationStep, ChunkStep;
    ClaimedIsReachable(tools);
    var running := Rows(Processing, Running, 1, None);
    var rows := Process(running, {0}, map[0 := RECEIPT, 1 := ReadRows(0, 0, 0)]);
    var bytes := Process(running, {0}, map[0 := RECEIPT, 1 := ReadBytes(0, 0, 0)]);
    Goes(tools, rows, 1, PLAIN, bytes);
    Goes(tools, bytes, 1, PLAIN, Process(running, {0}, map[0 := RECEIPT, 1 := Parse(0, 0, 0, UPLOAD)]));
  }

  /** The worker could not parse the upload. */
  lemma {:induction false} FailedIsReachable(tools: Tools)
    requires TailFits(tools)
    ensures Reachable(tools, Process(FAILED, {0}, map[0 := RECEIPT, 1 := Done]))
  {
    hide TailFits, Reachable, UploadStep, ReservationStep;
    ParsingIsReachable(tools);
    var running := Rows(Processing, Running, 1, None);
    var parse := Process(running, {0}, map[0 := RECEIPT, 1 := Parse(0, 0, 0, UPLOAD)]);
    var failing := Process(running, {0}, map[0 := RECEIPT, 1 := Failing(0, 0, 0, OtherFailure, false)]);
    Goes(tools, parse, 1, PLAIN, failing);
    Goes(tools, failing, 1, PLAIN, Process(FAILED, {0}, map[0 := RECEIPT, 1 := Done]));
  }

  /** The same bytes again, through the queue: the failed job sends the call on to reserving. */
  lemma {:induction false} RepeatedIsReachable(tools: Tools)
    requires TailFits(tools)
    ensures Reachable(tools, Process(FAILED, {0}, map[0 := RECEIPT, 1 := Done, 2 := Reserve(0, UPLOAD)]))
  {
    hide TailFits, Reachable, ReservationStep, WorkerStep, ChunkStep;
    FailedIsReachable(tools);
    var before := Process(FAILED, {0}, map[0 := RECEIPT, 1 := Done]);
    ReachableNext(tools, before, UploadVersion(2, 0, Pdf, UPLOAD, true));
    var document := before.(threads := before.threads[2 := CheckDocument(0, Pdf, UPLOAD, true)]);
    assert Next(tools, before, UploadVersion(2, 0, Pdf, UPLOAD, true)) == document;
    var source := before.(threads := before.threads[2 := CheckSource(0, UPLOAD, true)]);
    Goes(tools, document, 2, PLAIN, source);
    assert HasSource(FAILED, 0, 0, UPLOAD);
    var job := before.(threads := before.threads[2 := CheckSourceJob(0, UPLOAD, true, 0)]);
    Goes(tools, source, 2, PLAIN, job);
    Goes(tools, job, 2, PLAIN, before.(threads := before.threads[2 := Reserve(0, UPLOAD)]));
  }

  /** It does happen: an upload whose job has failed, and its bytes uploaded again through the
      queue, which is answered with the receipt of the failed job and starts nothing. */
  lemma {:induction false} FailedReceiptIsReachable(tools: Tools)
    requires TailFits(tools)
    ensures var p := Process(FAILED, {0}, map[0 := RECEIPT, 1 := Done, 2 := Answered(0, Some(0), true)]);
            Reachable(tools, p) && p.db.jobs[0].status == FailedJob && HasBytes(p.db, 0, UPLOAD)
  {
    hide TailFits, Reachable, UploadStep, WorkerStep, ChunkStep;
    RepeatedIsReachable(tools);
    assert HasSource(FAILED, 0, 0, UPLOAD);
    var reserve := Process(FAILED, {0}, map[0 := RECEIPT, 1 := Done, 2 := Reserve(0, UPLOAD)]);
    var adopt := Process(FAILED, {0}, map[0 := RECEIPT, 1 := Done, 2 := Adopt(0, 0)]);
    Goes(tools, reserve, 2, PLAIN, adopt);
    Goes(tools, adopt, 2, PLAIN, Process(FAILED, {0}, map[0 := RECEIPT, 1 := Done, 2 := Answered(0, Some(0), true)]));
  }

  // ---- The synchronous route --------------------------------------------------------------------------

  /** An upload in the request that has started no pipeline yet. */
  predicate IsSynchronous(pc: Pc) {
    match pc
    case LoadNew(_, _) => true
    case CreateDocument(_, _) => true
    case LoadMore(_, _) => true
    case CheckText(_, _) => true
    case CheckTextJob(_, _, _) => true
    case CreateParsed(_, _) => true
    case Reuse(_, _, _) => true
    case CreateJob(_, _, _) => true
    case MarkRunning(_) => true
    case CheckDocument(_, _, _, queued) => !queued
    case CheckSource(_, _, queued) => !queued
    case CheckSourceJob(_, _, queued, _) => !queued
    case _ => false
  }

  /** An upload in the request is never answered with the receipt of a version whose latest job
      has failed: it goes on until it runs a pipeline of its own, raises, or is answered with a
      latest job that has not. */
  lemma SynchronousAnswersHaveNotFailed(tools: Tools, p: Process, t: nat, luck: Luck)
    requires TailFits(tools) && t in p.threads && IsSynchronous(p.threads[t])
    ensures var pc := Next(tools, p, Go(t, luck)).threads[t];
            match pc
            case Answered(v, latest, deduplicated) => deduplicated && IsLatest(p.db, v, latest) && !LatestFailed(p.db, latest)
            case Chunking(_, byWorker) => !byWorker
            case _ => IsSynchronous(pc) || pc.Done?
  {
    hide TailFits, HasSource, HasText, NextNumber, Load, ValidUpload;
  }

  /** One call alone takes the process from p to q. */
  ghost predicate LeadsTo(tools: Tools, p: Process, t: nat, q: Process)
    requires TailFits(tools)
  {
    exists events :: OwnSteps(events, t) && q == Play(tools, p, events)
  }

  predicate OwnSteps(events: seq<Event>, t: nat) {
    forall i :: 0 <= i < |events| ==> events[i].Go? && events[i].thread == t
  }

  lemma LeadsNext(tools: Tools, p: Process, t: nat, q: Process, luck: Luck)
    requires TailFits(tools) && LeadsTo(tools, p, t, q) && t in q.threads
    ensures var (next, step) := (Next(tools, q, Go(t, luck)), CallStep(tools, State(q.db, q.queue, q.threads[t]), luck));
            LeadsTo(tools, p, t, next) && t in next.threads && next.db == step.db && next.threads[t] == step.pc
  {
    hide TailFits, CallStep;
    var events :| OwnSteps(events, t) && q == Play(tools, p, events);
    var more := events + [Go(t, luck)];
    assert more[..|events|] == events;
    assert OwnSteps(more, t) && Next(tools, q, Go(t, luck)) == Play(tools, p, more);
  }

  lemma LeadsNowhere(tools: Tools, p: Process, t: nat)
    requires TailFits(tools)
    ensures LeadsTo(tools, p, t, p)
  {
    hide TailFits;
    assert OwnSteps([], t) && p == Play(tools, p, []);
  }

  /** Every version with these bytes has been tried, and every job of it has failed. */
  ghost predicate BytesFailed(db: Db, d: Id, content: Bytes) {
    forall v :: v in db.versions && HasSource(db, v, d, content) ==>
      && (exists j :: j in db.jobs && db.jobs[j].version == v)
      && (forall j :: j in db.jobs && db.jobs[j].version == v ==> db.jobs[j].status == FailedJob)
  }

  /** No version with this text has a job that succeeded. */
  ghost predicate TextUnfinished(db: Db, d: Id, text: string) {
    forall v, j :: v in db.versions && HasText(db, v, d, text) && LatestSucceeded(db, Some(j)) ==> db.jobs[j].version != v
  }

  /** From the bytes past the failed job. */
  lemma {:induction false} ReachesLoading(tools: Tools, p: Process, t: nat, d: Id, content: Bytes) returns (q: Process)
    requires TailFits(tools) && t in p.threads && d in p.db.documents
    requires p.threads[t] == CheckDocument(d, p.db.documents[d].source, content, false) && BytesFailed(p.db, d, content)
    ensures LeadsTo(tools, p, t, q) && q.db == p.db && t in q.threads && q.threads[t] == LoadMore(d, content)
  {
    hide TailFits, LeadsTo, Next, HasSource, Load, ValidUpload, ReservationStep, WorkerStep, ChunkStep, BytesFailed;
    LeadsNowhere(tools, p, t);
    LeadsNext(tools, p, t, p, PLAIN);
    q := Next(tools, p, Go(t, PLAIN));
    LeadsNext(tools, p, t, q, PLAIN);
    q := Next(tools, q, Go(t, PLAIN));
    if q.threads[t].CheckSourceJob? {
      var luck := FailedLuck(p.db, d, content, q.threads[t].existing);
      LeadsNext(tools, p, t, q, luck);
      q := Next(tools, q, Go(t, luck));
    }
  }

  lemma FailedLuck(db: Db, d: Id, content: Bytes, v: Id) returns (luck: Luck)
    requires v in db.versions && HasSource(db, v, d, content) && BytesFailed(db, d, content)
    ensures IsLatest(db, v, luck.latest) && LatestFailed(db, luck.latest)
  {
    var j :| j in db.jobs && db.jobs[j].version == v;
    luck := PLAIN.(latest := Some(j));
  }

  /** Past the text: no version has it finished. */
  lemma {:induction false} ReachesCreation(tools: Tools, p: Process, t: nat, d: Id, text: string, q0: Process) returns (q: Process)
    requires TailFits(tools) && LeadsTo(tools, p, t, q0) && t in q0.threads && q0.threads[t] == CheckText(d, text)
    requires TextUnfinished(q0.db, d, text)
    ensures LeadsTo(tools, p, t, q) && t in q.threads && q.db == q0.db && q.threads[t] == CreateParsed(d, text)
  {
    hide TailFits, LeadsTo, Next, NextNumber, HasText, Load, UploadStep, WorkerStep, ChunkStep, TextUnfinished;
    LeadsNext(tools, p, t, q0, PLAIN);
    q := Next(tools, q0, Go(t, PLAIN));
    if q.threads[t].CheckTextJob? {
      var luck := UnfinishedLuck(q.db, d, text, q.threads[t].existing);
      LeadsNext(tools, p, t, q, luck);
      q := Next(tools, q, Go(t, luck));
    }
  }

  /** To a version with the text: one that has it, or a new one. */
  lemma {:induction false} ReachesVersion(tools: Tools, p: Process, t: nat, d: Id, text: string, q0: Process, v: Id) returns (q: Process)
    requires TailFits(tools) && LeadsTo(tools, p, t, q0) && t in q0.threads && q0.threads[t] == CreateParsed(d, text)
    requires d in q0.db.documents && v !in q0.db.versions && TextUnfinished(q0.db, d, text)
    ensures LeadsTo(tools, p, t, q) && t in q.threads && q.db.jobs == q0.db.jobs
    ensures q.threads[t].CreateJob? && q.threads[t] == CreateJob(d, q.threads[t].version, text)
    ensures q.threads[t].version in q.db.versions && HasText(q.db, q.threads[t].version, d, text)
  {
    hide TailFits, LeadsTo, Next, NextNumber, Load, UploadStep, WorkerStep, ChunkStep, TextUnfinished;
    LeadsNext(tools, p, t, q0, PLAIN.(id := v));
    q := Next(tools, q0, Go(t, PLAIN.(id := v)));
    if q.threads[t].Reuse? {
      var luck := UnfinishedLuck(q.db, d, text, q.threads[t].existing);
      LeadsNext(tools, p, t, q, luck);
      q := Next(tools, q, Go(t, luck));
    }
  }

  lemma UnfinishedLuck(db: Db, d: Id, text: string, v: Id) returns (luck: Luck)
    requires v in db.versions && HasText(db, v, d, text) && TextUnfinished(db, d, text)
    ensures IsLatest(db, v, luck.latest) && !LatestSucceeded(db, luck.latest)
  {
    luck := PLAIN.(latest := None);
    if j :| j in db.jobs && db.jobs[j].version == v {
      luck := PLAIN.(latest := Some(j));
    }
  }

  /** And it does retry: bytes whose versions have failed jobs only, uploaded again in the request
      as something that can be loaded, lead the call, when nothing interferes, to a pipeline of its
      own over a version with that text, under a new job that is running, unless a version with
      that text has a job that succeeded. */
  lemma {:induction false} SynchronousReuploadRetries(tools: Tools, p: Process, t: nat, d: Id, content: Bytes, parser: Option<Parser>, v: Id, j: Id)
      returns (q: Process)
    requires TailFits(tools) && t !in p.threads && d in p.db.documents && v !in p.db.versions && j !in p.db.jobs
    requires BytesFailed(p.db, d, content) && Load(content, p.db.documents[d].source, parser).Ok?
    requires TextUnfinished(p.db, d, Load(content, p.db.documents[d].source, parser).value.text)
    ensures LeadsTo(tools, Next(tools, p, UploadVersion(t, d, p.db.documents[d].source, content, false)), t, q)
    ensures t in q.threads && q.threads[t].Chunking? && !q.threads[t].byWorker
    ensures var work := q.threads[t].work;
            && work.document == d && work.job == j && work.text == Load(content, p.db.documents[d].source, parser).value.text
            && work.version in q.db.versions && HasText(q.db, work.version, d, work.text)
            && j in q.db.jobs && q.db.jobs[j] == Job(d, work.version, Running, 1, None)
  {
    hide TailFits, LeadsTo, HasText, Load, NextNumber, BytesFailed, TextUnfinished, UploadStep, WorkerStep, ChunkStep;
    var start := Next(tools, p, UploadVersion(t, d, p.db.documents[d].source, content, false));
    q := ReachesLoading(tools, start, t, d, content);
    LeadsNext(tools, start, t, q, PLAIN.(parser := parser));
    q := Next(tools, q, Go(t, PLAIN.(parser := parser)));
    q := ReachesCreation(tools, start, t, d, q.threads[t].text, q);
    q := ReachesVersion(tools, start, t, d, q.threads[t].text, q, v);
    q := RunsNewJob(tools, start, t, q, j);
  }

  lemma {:induction false} RunsNewJob(tools: Tools, p: Process, t: nat, q0: Process, j: Id) returns (q: Process)
    requires TailFits(tools) && LeadsTo(tools, p, t, q0) && t in q0.threads && q0.threads[t].CreateJob? && j !in q0.db.jobs
    ensures LeadsTo(tools, p, t, q) && t in q.threads && q.db.versions == q0.db.versions
    ensures var (d, v, text) := (q0.threads[t].document, q0.threads[t].version, q0.threads[t].text);
            && q.threads[t] == Chunking(Work(d, v, j, text), false)
            && j in q.db.jobs && q.db.jobs[j] == Job(d, v, Running, 1, None)
            && (v in q.db.versions ==> HasText(q.db, v, d, text) == HasText(q0.db, v, d, text))
  {
    hide TailFits, LeadsTo, Next, Load, NextNumber, UploadStep, WorkerStep, ChunkStep;
    LeadsNext(tools, p, t, q0, PLAIN.(id := j));
    q := Next(tools, q0, Go(t, PLAIN.(id := j)));
    LeadsNext(tools, p, t, q, PLAIN);
    q := Next(tools, q, Go(t, PLAIN));
  }
}
