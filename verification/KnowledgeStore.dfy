/** The knowledge store as the object it is: rows of documents, versions, jobs and chunks
    that its methods insert and update in place. */
module KnowledgeStore {
  import opened Outcomes
  import opened Numbering
  import opened DocumentLoader
  import opened Chunking
  import opened IngestionMachine
  import opened IngestionSafety

  /** How a store call fails: the row already exists under a unique hash, or is missing. */
  datatype StoreError = Duplicate(existing: Id) | Missing | Integrity

  class Store {
    var db: Db

    constructor ()
      ensures db == EMPTY.db
    {
      db := EMPTY.db;
    }

    method CreateDocument(d: Id, source: SourceType) returns (outcome: Outcome<Id, StoreError>)
      modifies this
      ensures d in old(db.documents) ==> outcome == Err(Missing) && db == old(db)
      ensures d !in old(db.documents) ==>
                outcome == Ok(d) && db == old(db).(documents := old(db.documents)[d := Document(source, Processing, None)])
    {
      if d in db.documents {
        return Err(Missing);
      }
      db := db.(documents := db.documents[d := Document(source, Processing, None)]);
      return Ok(d);
    }

    /** _next_version_no */
    method NextVersionNumber(d: Id) returns (next: nat)
      ensures next == NextNumber(db, d)
    {
      var numbers := VersionNumbers(db, d);
      ghost var expected := MaxNumber(numbers);
      if numbers == {} {
        return 1;
      }
      var max :| max in numbers && forall n :: n in numbers ==> n <= max;
      return max + 1;
    }

    /** create_parsed_version */
    method CreateParsedVersion(v: Id, d: Id, text: string) returns (outcome: Outcome<Id, StoreError>)
      requires v !in db.versions
      modifies this
      ensures match outcome
              case Ok(id) => id == v && d in old(db.documents) && !TextExists(old(db), d, text) && db == WithVersion(old(db), v, ParsedRow(d, NextNumber(old(db), d), text))
              case Err(Duplicate(e)) => db == old(db) && e in db.versions && HasText(db, e, d, text)
              case Err(_) => db == old(db) && d !in db.documents
    {
      if e :| e in db.versions && HasText(db, e, d, text) {
        return Err(Duplicate(e));
      }
      if d !in db.documents {
        return Err(Missing);
      }
      var number := NextVersionNumber(d);
      db := WithVersion(db, v, ParsedRow(d, number, text));
      return Ok(v);
    }

    /** create_version: reserve a row with the staged upload. */
    method CreateVersion(v: Id, d: Id, content: Bytes) returns (outcome: Outcome<Id, StoreError>)
      requires v !in db.versions
      modifies this
      ensures match outcome
              case Ok(id) => id == v && d in old(db.documents) && !SourceExists(old(db), d, content) && db == WithVersion(old(db), v, StagedRow(d, NextNumber(old(db), d), content))
              case Err(Duplicate(e)) => db == old(db) && e in db.versions && HasSource(db, e, d, content)
              case Err(_) => db == old(db) && d !in db.documents
    {
      if e :| e in db.versions && HasSource(db, e, d, content) {
        return Err(Duplicate(e));
      }
      if d !in db.documents {
        return Err(Missing);
      }
      var number := NextVersionNumber(d);
      db := WithVersion(db, v, StagedRow(d, number, content));
      return Ok(v);
    }

    /** record_version_content: the text appears and the upload disappears in one update. */
    method RecordVersionContent(v: Id, d: Id, text: string) returns (outcome: Outcome<(), StoreError>)
      modifies this
      ensures outcome.Err? ==> db == old(db)
      ensures outcome.Ok? <==> IsRowOf(old(db), v, d) && !TextTaken(old(db), Work(d, v, 0, text))
      ensures outcome.Ok? ==> db == WithVersion(old(db), v, old(db).versions[v].(contentHash := Some(text), rawText := Some(text), rawBytes := None))
    {
      if !IsRowOf(db, v, d) {
        return Err(Missing);
      }
      if TextTaken(db, Work(d, v, 0, text)) {
        return Err(Integrity);
      }
      db := WithVersion(db, v, db.versions[v].(contentHash := Some(text), rawText := Some(text), rawBytes := None));
      return Ok(());
    }

    /** claim_job: the guarded update; None if the job is not queued. */
    method ClaimJob(j: Id) returns (claimed: Option<Job>)
      modifies this
      ensures claimed.Some? <==> j in old(db.jobs) && old(db).jobs[j].status == Queued
      ensures claimed.None? ==> db == old(db)
      ensures claimed.Some? ==>
                && claimed.value == old(db).jobs[j].(status := Running, attempts := old(db).jobs[j].attempts + 1)
                && db == WithJob(old(db), j, claimed.value)
    {
      if j !in db.jobs || db.jobs[j].status != Queued {
        return None;
      }
      db := WithJob(db, j, db.jobs[j].(status := Running, attempts := db.jobs[j].attempts + 1));
      return Some(db.jobs[j]);
    }

    /** activate_version: the document and the job change together or not at all. */
    method ActivateVersion(d: Id, v: Id, j: Id) returns (outcome: Outcome<(), StoreError>)
      modifies this
      ensures outcome.Ok? <==> d in old(db.documents) && IsRowOf(old(db), v, d) && j in old(db.jobs) && old(db).jobs[j].version == v
      ensures outcome.Err? ==> db == old(db)
      ensures outcome.Ok? ==>
                db == old(db).(
                  documents := old(db.documents)[d := old(db).documents[d].(status := Active, active := Some(v))],
                  jobs := old(db.jobs)[j := old(db).jobs[j].(status := Succeeded, error := None)])
    {
      var before := db;
      if d !in db.documents || !IsRowOf(db, v, d) {
        return Err(Missing);
      }
      db := db.(documents := db.documents[d := db.documents[d].(status := Active, active := Some(v))]);
      if j !in db.jobs || db.jobs[j].version != v {
        db := before;
        return Err(Missing);
      }
      db := db.(jobs := db.jobs[j := db.jobs[j].(status := Succeeded, error := None)]);
      return Ok(());
    }

    /** fail_ingestion */
    method FailIngestion(d: Id, j: Id, error: FailureCode) returns (outcome: Outcome<(), StoreError>)
      modifies this
      ensures outcome.Ok? <==> d in old(db.documents)
      ensures db == if d in old(db.documents) then Failed(old(db), d, j, error) else old(db)
    {
      if d !in db.documents {
        return Err(Missing);
      }
      if j in db.jobs {
        db := db.(jobs := db.jobs[j := db.jobs[j].(status := FailedJob, error := Some(error))]);
      }
      if db.documents[d].active.None? {
        db := db.(documents := db.documents[d := db.documents[d].(status := FailedDocument)]);
      }
      return Ok(());
    }

    /** replace_chunks */
    method ReplaceChunks(v: Id, d: Id, chunks: seq<Chunk>) returns (outcome: Outcome<(), StoreError>)
      modifies this
      ensures outcome.Ok? <==> IsRowOf(old(db), v, d)
      ensures db == if outcome.Ok? then old(db).(chunks := old(db.chunks)[v := chunks]) else old(db)
    {
      if !IsRowOf(db, v, d) {
        return Err(Missing);
      }
      db := db.(chunks := db.chunks - {v});
      db := db.(chunks := db.chunks[v := chunks]);
      return Ok(());
    }

    /** The vector store: points are written under the identifiers of their chunks. */
    method Upsert(points: set<Point>)
      modifies this
      ensures db == old(db).(points := old(db.points) + points)
    {
      db := db.(points := db.points + points);
    }

    /** recover_stale_jobs: one row after the other, in any order. */
    method RecoverStaleJobs() returns (requeued: seq<Id>)
      requires JobsFit(db) && VersionsFit(db)
      modifies this
      ensures db == Recovered(old(db))
      ensures forall j :: j in requeued <==> j in Requeued(old(db))
    {
      hide IsStaged, IsParsed, PartlyRecovered, RecoveredJob, Recovered, Requeued, JobsFit, VersionsFit;
      requeued := [];
      ghost var before := db;
      ghost var part: set<Id> := {};
      var rest := StaleJobs(db);
      NoneRecovered(db);
      while rest != {}
        invariant rest + part == StaleJobs(before) && rest !! part
        invariant PartlyRecovered(before, db, part)
        invariant forall j :: j in requeued <==> j in part && RecoveredJob(before, before.jobs[j]).status == Queued
        decreases |rest|
      {
        var j :| j in rest;
        var queuedAgain := RecoverJob(j, before, part);
        if queuedAgain {
          requeued := requeued + [j];
        }
        rest, part := rest - {j}, part + {j};
      }
      assert part == StaleJobs(before);
      AllRecovered(before, db);
      AllRequeued(before, part);
    }

    /** What happens to one stale row. */
    method RecoverJob(j: Id, ghost before: Db, ghost part: set<Id>) returns (queuedAgain: bool)
      requires PartlyRecovered(before, db, part) && JobsFit(before) && VersionsFit(before)
      requires j in before.jobs && IsStale(before.jobs[j]) && j !in part
      modifies this
      ensures PartlyRecovered(before, db, part + {j})
      ensures queuedAgain <==> RecoveredJob(before, before.jobs[j]).status == Queued
    {
      hide IsStaged, IsParsed, InterruptedIn;
      var job := db.jobs[j];
      RecoveredSame(before, db, job);
      RowRecovered(before, db, part, j);
      if job.status == Queued || IsRecoverable(db, job) {
        db := db.(jobs := db.jobs[j := job.(status := Queued)]);
        return true;
      }
      db := db.(jobs := db.jobs[j := job.(status := FailedJob, error := Some(Interrupted))]);
      db := db.(documents := db.documents[job.document := FailedDocumentRow(db.documents[job.document])]);
      return false;
    }
  }

  function StaleJobs(db: Db): set<Id> {
    set j | j in db.jobs && IsStale(db.jobs[j])
  }

  lemma NoneRecovered(db: Db)
    ensures PartlyRecovered(db, db, {})
  {
  }

  /** The tables after one more stale row. */
  function WithRecovered(db: Db, j: Id, row: Job): Db
    requires row.document in db.documents
  {
    db.(jobs := db.jobs[j := row],
        documents := if row.status == FailedJob then db.documents[row.document := FailedDocumentRow(db.documents[row.document])] else db.documents)
  }

  lemma RowRecovered(before: Db, db: Db, part: set<Id>, j: Id)
    requires PartlyRecovered(before, db, part) && j in before.jobs && IsStale(before.jobs[j]) && j !in part
    requires before.jobs[j].document in before.documents
    ensures PartlyRecovered(before, WithRecovered(db, j, RecoveredJob(before, before.jobs[j])), part + {j})
  {
    hide IsRecoverable, InterruptedIn, RecoveredJob;
    SameDocument(before, before.jobs[j]);
    PartExtended(before, part, j);
  }

  lemma SameDocument(db: Db, job: Job)
    ensures RecoveredJob(db, job).document == job.document
  {
  }

  predicate TextExists(db: Db, d: Id, text: string) {
    exists v :: v in db.versions && HasText(db, v, d, text)
  }

  predicate SourceExists(db: Db, d: Id, content: Bytes) {
    exists v :: v in db.versions && HasSource(db, v, d, content)
  }

  predicate IsRowOf(db: Db, v: Id, d: Id) {
    v in db.versions && db.versions[v].document == d
  }

  /** The tables when the stale jobs in part have been recovered. */
  predicate PartlyRecovered(before: Db, db: Db, part: set<Id>) {
    && db == before.(jobs := db.jobs, documents := db.documents)
    && db.jobs.Keys == before.jobs.Keys && db.documents.Keys == before.documents.Keys
    && (forall j :: j in before.jobs ==> db.jobs[j] == if j in part then RecoveredJob(before, before.jobs[j]) else before.jobs[j])
    && (forall d :: d in before.documents ==>
          db.documents[d] == if InterruptedIn(before, d, part) then FailedDocumentRow(before.documents[d]) else before.documents[d])
  }

  predicate InterruptedIn(db: Db, d: Id, part: set<Id>) {
    exists j :: j in part && j in db.jobs && db.jobs[j].document == d && IsStale(db.jobs[j])
                && RecoveredJob(db, db.jobs[j]).status == FailedJob
  }

  lemma RecoveredSame(before: Db, db: Db, job: Job)
    requires db.versions == before.versions
    ensures IsRecoverable(db, job) == IsRecoverable(before, job)
  {
  }

  lemma PartExtended(before: Db, part: set<Id>, j: Id)
    requires j in before.jobs && IsStale(before.jobs[j]) && j !in part
    ensures forall d :: InterruptedIn(before, d, part + {j}) <==>
              InterruptedIn(before, d, part) || (before.jobs[j].document == d && RecoveredJob(before, before.jobs[j]).status == FailedJob)
  {
    forall d | before.jobs[j].document == d && RecoveredJob(before, before.jobs[j]).status == FailedJob
      ensures InterruptedIn(before, d, part + {j})
    {
      assert j in part + {j};
    }
  }

  lemma AllRequeued(before: Db, part: set<Id>)
    requires part == StaleJobs(before)
    ensures forall j :: j in Requeued(before) <==> j in part && RecoveredJob(before, before.jobs[j]).status == Queued
  {
  }

  lemma AllRecovered(before: Db, db: Db)
    requires PartlyRecovered(before, db, StaleJobs(before))
    ensures db == Recovered(before)
  {
    var stale := StaleJobs(before);
    forall d
      ensures InterruptedIn(before, d, stale) <==> HasInterruptedJob(before, d)
    {
    }
    assert db.jobs == Recovered(before).jobs;
    assert db.documents == Recovered(before).documents;
  }
}
