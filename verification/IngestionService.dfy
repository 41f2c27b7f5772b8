/** The ingestion service running one queued job with nothing in between: the program of
    IngestionMachine, and the object that carries it out on its store. */
module IngestionService {
  import opened Outcomes
  import opened DocumentLoader
  import opened Chunking
  import opened IngestionMachine
  import opened IngestionSafety
  import opened IngestionSteps
  import KnowledgeStore

  /** What the outside calls of a job do: the parsing service, the embedding, and the vector
      store, which may fail after writing some points. */
  datatype Outside = Outside(parser: Option<Parser>, embeddingFails: bool, upsertFailsAfter: Option<set<Point>>)

  function LuckFor(pc: Pc, outside: Outside): Luck {
    var fails := (pc.Chunking? && outside.embeddingFails) || (pc.Upserting? && outside.upsertFailsAfter.Some?);
    Luck(0, outside.parser, None, if outside.upsertFailsAfter.Some? then outside.upsertFailsAfter.value else {}, fails, false)
  }

  predicate IsJob(pc: Pc) {
    IsWorker(pc) || IsPipeline(pc) || pc.Done?
  }

  function Rank(pc: Pc): nat {
    match pc
    case Claim(_) => 12
    case ReadRows(_, _, _) => 11
    case ReloadText(_) => 10
    case ReadBytes(_, _, _) => 10
    case Parse(_, _, _, _) => 9
    case Backfill(_) => 8
    case Chunking(_, _) => 7
    case Replacing(_, _, _) => 6
    case Upserting(_, _, _) => 5
    case Activating(_, _) => 4
    case Failing(_, _, _, _, again) => if again then 3 else 2
    case _ => 1
  }

  /** A job makes at most twelve steps. */
  lemma RankFalls(tools: Tools, s: State, luck: Luck)
    requires TailFits(tools) && IsJob(s.pc) && !s.pc.Done?
    ensures IsJob(CallStep(tools, s, luck).pc) && Rank(CallStep(tools, s, luck).pc) < Rank(s.pc)
  {
    hide TailFits, Load, Reload, ChunksOf, Points, TextTaken;
  }

  ghost function Finish(tools: Tools, s: State, outside: Outside): State
    requires TailFits(tools) && IsJob(s.pc)
    decreases Rank(s.pc)
  {
    if s.pc.Done? then s
    else
      RankFalls(tools, s, LuckFor(s.pc, outside));
      Finish(tools, CallStep(tools, s, LuckFor(s.pc, outside)), outside)
  }

  lemma {:induction false} Advance(tools: Tools, s: State, outside: Outside)
    requires TailFits(tools) && IsJob(s.pc) && !s.pc.Done?
    ensures IsJob(CallStep(tools, s, LuckFor(s.pc, outside)).pc)
    ensures Finish(tools, s, outside) == Finish(tools, CallStep(tools, s, LuckFor(s.pc, outside)), outside)
  {
    hide CallStep, TailFits;
    RankFalls(tools, s, LuckFor(s.pc, outside));
  }

  class Service {
    const tools: Tools
    const store: KnowledgeStore.Store
    const chunker: KnowledgeChunker

    constructor (tools: Tools, store: KnowledgeStore.Store, chunker: KnowledgeChunker)
      requires chunker.tools == tools
      ensures this.tools == tools && this.store == store && this.chunker == chunker
    {
      this.tools, this.store, this.chunker := tools, store, chunker;
    }

    /** The state of a job of this service that stands at a step. */
    function At(pc: Pc): State
      reads store
    {
      State(store.db, {}, pc)
    }

    /** The rows that a claimed job works on are there. */
    predicate RowsThere(d: Id, v: Id, j: Id)
      reads store
    {
      IsVersionOf(store.db, v, d) && JobIs(store.db, j, d, v)
    }

    /** run_job: claim the job, get its text, and put it through the pipeline. */
    method RunJob(j: Id, outside: Outside) returns (ran: bool)
      requires TailFits(tools) && chunker.tools == tools && RowsFit(tools, store.db)
      modifies store
      ensures Finish(tools, old(At(Claim(j))), outside).db == store.db
      ensures ran <==> j in old(store.db).jobs && old(store.db).jobs[j].status == Queued
    {
      hide RowsFit, Finish, TailFits;
      Advance(tools, At(Claim(j)), outside);
      if j in store.db.jobs {
        JobHasVersion(tools, store.db, j);
      }
      var claimed := store.ClaimJob(j);
      if claimed.None? {
        JobDone(tools, At(Done), outside);
        return false;
      }
      RunClaimed(claimed.value.document, claimed.value.version, j, outside);
      return true;
    }

    /** _load_version_content, and then the pipeline */
    method RunClaimed(d: Id, v: Id, j: Id, outside: Outside)
      requires TailFits(tools) && chunker.tools == tools && RowsThere(d, v, j)
      modifies store
      ensures Finish(tools, old(At(ReadRows(d, v, j))), outside).db == store.db
    {
      hide Finish, TailFits;
      Advance(tools, At(ReadRows(d, v, j)), outside);
      var row := store.db.versions[v];
      if row.contentHash.Some? && row.rawText.Some? {
        ReloadStored(Work(d, v, j, row.rawText.value), outside);
      } else {
        ParseStaged(d, v, j, outside);
      }
    }

    /** The text is there already: no second parse. */
    method ReloadStored(work: Work, outside: Outside)
      requires TailFits(tools) && chunker.tools == tools && RowsThere(work.document, work.version, work.job)
      modifies store
      ensures Finish(tools, old(At(ReloadText(work))), outside).db == store.db
    {
      hide Finish, TailFits, Reload;
      Advance(tools, At(ReloadText(work)), outside);
      var loaded := Reload(work.text, store.db.documents[work.document].source);
      if loaded.Err? {
        FailReserved(work.document, work.version, work.job, OtherFailure, false, outside);
      } else {
        RunPipeline(work.(text := loaded.value.text), outside);
      }
    }

    method ParseStaged(d: Id, v: Id, j: Id, outside: Outside)
      requires TailFits(tools) && chunker.tools == tools && RowsThere(d, v, j)
      modifies store
      ensures Finish(tools, old(At(ReadBytes(d, v, j))), outside).db == store.db
    {
      hide Finish, TailFits, Load;
      Advance(tools, At(ReadBytes(d, v, j)), outside);
      var row := store.db.versions[v];
      if row.rawBytes.None? {
        FailReserved(d, v, j, SourceMissing, false, outside);
        return;
      }
      Advance(tools, At(Parse(d, v, j, row.rawBytes.value)), outside);
      var loaded := Load(row.rawBytes.value, store.db.documents[d].source, outside.parser);
      if loaded.Err? {
        FailReserved(d, v, j, OtherFailure, false, outside);
        return;
      }
      RecordText(Work(d, v, j, loaded.value.text), outside);
    }

    method RecordText(work: Work, outside: Outside)
      requires TailFits(tools) && chunker.tools == tools && RowsThere(work.document, work.version, work.job)
      modifies store
      ensures Finish(tools, old(At(Backfill(work))), outside).db == store.db
    {
      hide Finish, TailFits;
      Advance(tools, At(Backfill(work)), outside);
      var recorded := store.RecordVersionContent(work.version, work.document, work.text);
      if recorded.Err? {
        FailReserved(work.document, work.version, work.job, OtherFailure, false, outside);
      } else {
        RunPipeline(work, outside);
      }
    }

    /** _pipeline_version, and recording its failure a second time as run_job does */
    method RunPipeline(work: Work, outside: Outside)
      requires TailFits(tools) && chunker.tools == tools && RowsThere(work.document, work.version, work.job)
      modifies store
      ensures Finish(tools, old(At(Chunking(work, true))), outside).db == store.db
    {
      hide Finish, TailFits, SplitDocument, DocumentOf, Points;
      Advance(tools, At(Chunking(work, true)), outside);
      var split := chunker.Split(DocumentOf(work.text, store.db.documents[work.document].source));
      if split.Err? || outside.embeddingFails {
        FailReserved(work.document, work.version, work.job, OtherFailure, true, outside);
        return;
      }
      Advance(tools, At(Replacing(work, split.value, true)), outside);
      var replaced := store.ReplaceChunks(work.version, work.document, split.value);
      StoreChunks(work, split.value, outside);
    }

    /** Write the points, then activate. */
    method StoreChunks(work: Work, chunks: seq<Chunk>, outside: Outside)
      requires TailFits(tools) && RowsThere(work.document, work.version, work.job)
      modifies store
      ensures Finish(tools, old(At(Upserting(work, chunks, true))), outside).db == store.db
    {
      hide Finish, TailFits, Points;
      Advance(tools, At(Upserting(work, chunks, true)), outside);
      var batch := Points(work.version, chunks);
      if outside.upsertFailsAfter.Some? {
        store.Upsert(batch * outside.upsertFailsAfter.value);
        FailReserved(work.document, work.version, work.job, OtherFailure, true, outside);
        return;
      }
      store.Upsert(batch);
      Advance(tools, At(Activating(work, true)), outside);
      var activated := store.ActivateVersion(work.document, work.version, work.job);
      JobDone(tools, At(Done), outside);
    }

    /** _fail_reserved */
    method FailReserved(d: Id, v: Id, j: Id, error: FailureCode, again: bool, outside: Outside)
      requires TailFits(tools) && RowsThere(d, v, j)
      modifies store
      ensures Finish(tools, old(At(Failing(d, v, j, error, again))), outside).db == store.db
      decreases again
    {
      hide Finish, TailFits;
      Advance(tools, At(Failing(d, v, j, error, again)), outside);
      var failed := store.FailIngestion(d, j, error);
      if again {
        FailReserved(d, v, j, error, false, outside);
      } else {
        JobDone(tools, At(Done), outside);
      }
    }
  }

  lemma {:induction false} JobDone(tools: Tools, s: State, outside: Outside)
    requires TailFits(tools) && s.pc.Done?
    ensures Finish(tools, s, outside) == s
  {
  }
}
