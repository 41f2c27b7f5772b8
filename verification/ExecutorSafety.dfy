/** Every step of the machine keeps it safe. */
module ExecutorSafety {
  import opened Outcomes
  import opened ActionModel
  import opened ActionTransactions
  import opened ActionInvariants
  import opened SettlementPreservation
  import opened ActionRuns
  import opened ActionHistory
  import opened ExecutorProgram
  import opened ExecutorMachine

  // ---- What a step of a call writes ----------------------------------------------------

  lemma WrittenKeeps(db: Db, pc: Pc, luck: Luck)
    requires Consistent(db)
    ensures Consistent(Written(db, pc, luck)) && History(db, Written(db, pc, luck))
  {
    hide Consistent, History, Apply;
    match StoreCall(pc, luck)
    case Some(step) => ApplyKeeps(db, step);
    case None => HistoryReflexive(db);
  }

  lemma ApplyKeeps(db: Db, step: Step)
    requires Consistent(db)
    ensures Consistent(Apply(db, step)) && History(db, Apply(db, step))
  {
    hide Apply, History;
    StepKeeps(db, step);
    StepHistory(db, step);
  }

  /** Executions under other keys are untouched. */
  predicate TouchesOnly(rows: map<Id, Execution>, rows': map<Id, Execution>, key: Key) {
    forall e :: e in rows && rows[e].key != key ==> e in rows' && rows'[e] == rows[e]
  }

  lemma StoreClaimExecutions(db: Db, id: Id, row: Execution, allowed: set<ProposalStatus>)
    requires StoreClaim(db, id, row, allowed).Ok?
    ensures StoreClaim(db, id, row, allowed).value == (StoreClaim(db, id, row, allowed).value.0, Claim(id, row, true))
    ensures StoreClaim(db, id, row, allowed).value.0.executions == db.executions[id := row]
    ensures StoreClaim(db, id, row, allowed).value.0.refunds == db.refunds
  {
  }

  lemma ClaimRows(db: Db, p: Id, v: Id, action: ActionType, key: Key, newId: Id)
    requires ClaimExecution(db, p, v, action, key, newId).Ok?
    ensures var (db', claim) := ClaimExecution(db, p, v, action, key, newId).value;
            && TouchesOnly(db.executions, db'.executions, key)
            && db'.refunds == db.refunds
            && (forall e :: e in db'.executions && e !in db.executions ==> e == claim.id && claim.acquired)
            && claim.id in db'.executions && db'.executions[claim.id] == claim.row
            && ChainMatches(claim.row, p, v, action) && claim.row.key == key
            && (claim.acquired ==> claim.row.status == Claimed)
            && (!claim.acquired ==> db' == db)
  {
    hide StoreClaim;
    match ExecutionByKey(db, key)
    case Some(id) =>
      var ex := db.executions[id];
      if ex.status == FailedRetryable {
        StoreClaimExecutions(db, id, Reclaimed(ex), {Approved, Executing, ProposalFailed});
      }
    case None =>
      StoreClaimExecutions(db, newId, Execution(p, v, action, key, Claimed, 1, None, None, false, false), {Approved, Executing, ProposalFailed});
  }

  lemma ReclaimRows(db: Db, id: Id)
    requires ReclaimExecution(db, id).Ok? && db.executions[id].status in {Claimed, InProgress}
    ensures var (db', claim) := ReclaimExecution(db, id).value;
            && db'.executions == db.executions[id := Reclaimed(db.executions[id])]
            && db'.refunds == db.refunds
            && claim.acquired && claim.id == id
  {
    hide StoreClaim;
    StoreClaimExecutions(db, id, Reclaimed(db.executions[id]), {Approved, Executing});
  }

  lemma MarkRows(db: Db, id: Id)
    requires MarkRunning(db, id).Ok? && db.executions[id].status == Claimed
    ensures MarkRunning(db, id).value.0 == db.(executions := db.executions[id := db.executions[id].(status := InProgress)])
  {
  }

  lemma FailureRows(db: Db, id: Id, errorCode: string, retryable: bool)
    requires RecordFailure(db, id, errorCode, retryable).Ok? && db.executions[id].status == InProgress
    ensures var db' := RecordFailure(db, id, errorCode, retryable).value.0;
            db'.executions == db.executions[id := FailedExecution(db.executions[id], errorCode, retryable)] && db'.refunds == db.refunds
  {
  }

  lemma SuccessRows(db: Db, id: Id, s: Settlement)
    requires RecordSuccess(db, id, s).Ok? && db.executions[id].status == InProgress
    ensures var (db', success) := RecordSuccess(db, id, s).value;
            && db'.executions == db.executions[id := SettledExecution(db.executions[id], s.record, success.orderRefunded)]
            && success.record == s.record
  {
    SuccessSettles(db, id, s);
  }

  lemma ClaimTouches(db: Db, pc: Pc, luck: Luck)
    requires OwnFits(db, pc) && (pc.ToClaim? || pc.ToReclaim?)
    ensures TouchesOnly(db.executions, Written(db, pc, luck).executions, pc.key)
  {
    hide ClaimExecution, ReclaimExecution;
    match pc
    case ToClaim(key, chain) =>
      if ClaimExecution(db, chain.proposal, chain.decision.decidedVersion, chain.row.action, key, luck.newExecution).Ok? {
        ClaimRows(db, chain.proposal, chain.decision.decidedVersion, chain.row.action, key, luck.newExecution);
      }
    case ToReclaim(_, _, e) =>
      if ReclaimExecution(db, e).Ok? {
        ReclaimRows(db, e);
      }
  }

  lemma WrittenTouches(db: Db, pc: Pc, luck: Luck)
    requires OwnFits(db, pc) && Holds(pc)
    ensures TouchesOnly(db.executions, Written(db, pc, luck).executions, pc.key)
  {
    hide ClaimExecution, ReclaimExecution, MarkRunning, RecordSuccess, RecordFailure;
    match pc
    case ToClaim(_, _) => ClaimTouches(db, pc, luck);
    case ToReclaim(_, _, _) => ClaimTouches(db, pc, luck);
    case ToMark(_, _, e) =>
      if MarkRunning(db, e).Ok? {
        MarkRows(db, e);
      }
    case ToRecord(_, chain, e, record) =>
      if RecordSuccess(db, e, SettlementOf(chain, record)).Ok? {
        SuccessRows(db, e, SettlementOf(chain, record));
      }
    case ToFail(_, _, e, error, retryable) =>
      if RecordFailure(db, e, ErrorCode(error), retryable).Ok? {
        FailureRows(db, e, ErrorCode(error), retryable);
      }
    case _ =>
  }

  /** The only new execution is the claim of the chain that the call loaded. */
  lemma WrittenClaims(db: Db, pc: Pc, luck: Luck, e: Id)
    requires OwnFits(db, pc) && e !in db.executions && e in Written(db, pc, luck).executions
    ensures pc.ToClaim?
    ensures var ex := Written(db, pc, luck).executions[e];
            ChainMatches(ex, pc.chain.proposal, pc.chain.decision.decidedVersion, pc.chain.row.action) && ex.key == pc.key
  {
    hide ClaimExecution, ReclaimExecution, MarkRunning, RecordSuccess, RecordFailure;
    match pc
    case ToClaim(key, chain) =>
      ClaimRows(db, chain.proposal, chain.decision.decidedVersion, chain.row.action, key, luck.newExecution);
    case ToReclaim(_, _, own) => ReclaimRows(db, own);
    case ToMark(_, _, own) => MarkRows(db, own);
    case ToRecord(_, chain, own, record) => SuccessRows(db, own, SettlementOf(chain, record));
    case ToFail(_, _, own, error, retryable) => FailureRows(db, own, ErrorCode(error), retryable);
  }

  // ---- The call that takes the step -------------------------------------------------------

  /** The chain loaded under the lock is the chain of the key the lock was taken for. */
  lemma KeyMatchesChain(db: Db, run: Id, key: Key, chain: Chain)
    requires RunsLinked(db) && ProposalsLinked(db) && OneApproval(db)
    requires ChainStands(db, run, key) && ChainFits(db, run, chain)
    ensures KeyOf(chain) == key
  {
    OneChain(db, run, key, KeyOf(chain));
  }

  lemma LoadNextFits(db: Db, run: Id, load: Load)
    requires RunsLinked(db) && LoadFits(db, run, load)
    ensures match LoadNext(db, run, load)
            case More(next) => LoadFits(db, run, next)
            case Complete(chain) => ChainFits(db, run, chain) && ChainStands(db, run, KeyOf(chain))
            case Refused(_) => true
  {
  }

  /** An execution of the decided version carries the key of the chain. */
  lemma ExecutionOfChain(db: Db, run: Id, chain: Chain, e: Id)
    requires ExecutionsAgree(db) && ChainFits(db, run, chain)
    requires e in db.executions && db.executions[e].version == chain.decision.decidedVersion
    ensures var ex := db.executions[e]; Key(ex.proposal, ex.version, ex.action) == KeyOf(chain)
  {
    assert ExecutionFits(db, e);
  }

  lemma ReplayFits(db: Db, run: Id, key: Key, e: Id)
    requires ChainStands(db, run, key) && e in db.executions && db.executions[e].status == Done
    requires var ex := db.executions[e]; Key(ex.proposal, ex.version, ex.action) == key
    ensures EndingFits(db, run, Replay(db.executions[e]))
  {
    assert db.executions[e].result.Some? ==> IsResultOf(db, run, Replay(db.executions[e]), db.executions[e]);
  }

  /** What the invariant of the store gives to a call. */
  ghost predicate Linked(db: Db) {
    RunsLinked(db) && ProposalsLinked(db) && OneApproval(db) && ExecutionsAgree(db) && ClaimsDecided(db)
  }

  lemma ClaimOwns(db: Db, run: Id, key: Key, chain: Chain, luck: Luck)
    requires Linked(db) && PcFits(db, run, ToClaim(key, chain))
    ensures OwnFits(Written(db, ToClaim(key, chain), luck), Continue(db, run, ToClaim(key, chain), luck))
  {
    hide ClaimExecution, Linked, ChainFits;
    assert KeyOf(chain) == key by { ChainIsKey(db, run, key, chain); }
    if ClaimExecution(db, chain.proposal, chain.decision.decidedVersion, chain.row.action, key, luck.newExecution).Ok? {
      ClaimRows(db, chain.proposal, chain.decision.decidedVersion, chain.row.action, key, luck.newExecution);
    }
  }

  lemma ChainIsKey(db: Db, run: Id, key: Key, chain: Chain)
    requires Linked(db) && ChainStands(db, run, key) && ChainFits(db, run, chain)
    ensures KeyOf(chain) == key
  {
    KeyMatchesChain(db, run, key, chain);
  }

  lemma ContinueOwns(db: Db, run: Id, pc: Pc, luck: Luck)
    requires Linked(db) && PcFits(db, run, pc) && OwnFits(db, pc)
    ensures OwnFits(Written(db, pc, luck), Continue(db, run, pc, luck))
  {
    hide Linked, PcFits, LoadNext, ClaimExecution, ReclaimExecution, MarkRunning, RecordSuccess, RecordFailure;
    match pc
    case ToClaim(key, chain) => ClaimOwns(db, run, key, chain, luck);
    case ToReclaim(_, _, e) =>
      if ReclaimExecution(db, e).Ok? {
        ReclaimRows(db, e);
      }
    case ToMark(_, _, e) =>
      if MarkRunning(db, e).Ok? {
        MarkRows(db, e);
      }
    case _ =>
  }

  /** A call that is still working has kept its key and its chain. */
  predicate Works(pc: Pc) {
    !pc.Outside? && !pc.Waiting? && !pc.Inside? && !pc.Leaving? && !pc.Ended?
  }

  lemma ContinueKeepsChain(db: Db, run: Id, pc: Pc, luck: Luck)
    requires Works(pc) && Works(Continue(db, run, pc, luck))
    ensures Continue(db, run, pc, luck).key == pc.key && Continue(db, run, pc, luck).chain == pc.chain
  {
  }

  lemma ContinueFits(db: Db, run: Id, pc: Pc, luck: Luck)
    requires Consistent(db) && Linked(db) && PcFits(db, run, pc) && OwnFits(db, pc)
    ensures PcFits(Written(db, pc, luck), run, Continue(db, run, pc, luck))
  {
    hide Consistent, Linked, PcFits, OwnFits, Written, Continue;
    if !Works(pc) {
      LoadingFits(db, run, pc, luck);
    } else if Works(Continue(db, run, pc, luck)) {
      WorkingFits(db, run, pc, luck);
    } else {
      EndFits(db, run, pc, luck);
    }
  }

  lemma FirstLoadFits(db: Db, run: Id)
    ensures LoadFits(db, run, AtRun)
  {
  }

  lemma LoadingFits(db: Db, run: Id, pc: Pc, luck: Luck)
    requires Linked(db) && PcFits(db, run, pc) && !Works(pc)
    ensures PcFits(Written(db, pc, luck), run, Continue(db, run, pc, luck))
  {
    hide LoadNext, ChainStands, ChainFits, LoadFits, RunsLinked;
    match pc
    case Outside(load) => LoadNextFits(db, run, load);
    case Inside(_, load) => LoadNextFits(db, run, load);
    case Waiting(_) => FirstLoadFits(db, run);
    case _ =>
  }

  lemma WorkingFits(db: Db, run: Id, pc: Pc, luck: Luck)
    requires Consistent(db) && PcFits(db, run, pc) && Works(pc) && Works(Continue(db, run, pc, luck))
    ensures PcFits(Written(db, pc, luck), run, Continue(db, run, pc, luck))
  {
    hide Consistent, Written, History, ChainStands, ChainFits;
    assert PcFits(Written(db, pc, luck), run, pc) by {
      WrittenKeeps(db, pc, luck);
      PcKept(db, Written(db, pc, luck), run, pc);
    }
    ContinueKeepsChain(db, run, pc, luck);
    hide Continue;
  }

  lemma EndFits(db: Db, run: Id, pc: Pc, luck: Luck)
    requires Consistent(db) && Linked(db) && PcFits(db, run, pc) && OwnFits(db, pc) && Works(pc)
    requires !Works(Continue(db, run, pc, luck))
    ensures PcFits(Written(db, pc, luck), run, Continue(db, run, pc, luck))
  {
    hide Consistent, Linked, ChainStands, ChainFits, EndingFits, ClaimExecution, ReclaimExecution, MarkRunning, RecordSuccess,
         RecordFailure, Apply;
    match pc
    case ToRead(key, chain) => ReadEnds(db, run, key, chain, luck);
    case ToClaim(key, chain) => ClaimEnds(db, run, key, chain, luck);
    case ToReclaim(key, chain, e) => ReclaimEnds(db, run, key, chain, e, luck);
    case ToMark(_, _, _) => ErrorFits(Written(db, pc, luck), run, Continue(db, run, pc, luck).ending);
    case ToRecord(key, chain, e, record) => RecordEnds(db, run, key, chain, e, record, luck);
    case ToFail(_, _, _, _, _) => ErrorFits(Written(db, pc, luck), run, Continue(db, run, pc, luck).ending);
    case ToAdapt(_, _, _) =>
  }

  lemma ErrorFits(db: Db, run: Id, ending: Ending)
    requires !ending.Executed?
    ensures EndingFits(db, run, ending)
  {
  }

  lemma ReadEnds(db: Db, run: Id, key: Key, chain: Chain, luck: Luck)
    requires Linked(db) && PcFits(db, run, ToRead(key, chain)) && Continue(db, run, ToRead(key, chain), luck).Leaving?
    ensures EndingFits(db, run, Continue(db, run, ToRead(key, chain), luck).ending)
  {
    hide Linked, ChainStands, ChainFits, EndingFits;
    match ExecutionByVersion(db, chain.decision.decidedVersion)
    case Some(e) =>
      if db.executions[e].status == Done {
        ReadReplay(db, run, key, chain, e);
      } else {
        ErrorFits(db, run, Raised(RunStateConflict));
      }
    case None => ErrorFits(db, run, Raised(RunStateConflict));
  }

  lemma ReadReplay(db: Db, run: Id, key: Key, chain: Chain, e: Id)
    requires Linked(db) && ChainStands(db, run, key) && ChainFits(db, run, chain)
    requires e in db.executions && db.executions[e].status == Done && db.executions[e].version == chain.decision.decidedVersion
    ensures EndingFits(db, run, Replay(db.executions[e]))
  {
    ChainIsKey(db, run, key, chain);
    ExecutionOfChain(db, run, chain, e);
    ReplayFits(db, run, key, e);
  }

  lemma ClaimEnds(db: Db, run: Id, key: Key, chain: Chain, luck: Luck)
    requires Linked(db) && PcFits(db, run, ToClaim(key, chain)) && Continue(db, run, ToClaim(key, chain), luck).Leaving?
    ensures EndingFits(Written(db, ToClaim(key, chain), luck), run, Continue(db, run, ToClaim(key, chain), luck).ending)
  {
    hide Linked, ChainStands, ChainFits, EndingFits, ClaimExecution;
    var v := chain.decision.decidedVersion;
    var claimed := ClaimExecution(db, chain.proposal, v, chain.row.action, key, luck.newExecution);
    var ending := Continue(db, run, ToClaim(key, chain), luck).ending;
    if ending.Executed? {
      ClaimRows(db, chain.proposal, v, chain.row.action, key, luck.newExecution);
      ReadReplay(db, run, key, chain, claimed.value.1.id);
    } else {
      ErrorFits(Written(db, ToClaim(key, chain), luck), run, ending);
    }
  }

  lemma ReclaimEnds(db: Db, run: Id, key: Key, chain: Chain, e: Id, luck: Luck)
    requires OwnFits(db, ToReclaim(key, chain, e)) && Continue(db, run, ToReclaim(key, chain, e), luck).Leaving?
    ensures EndingFits(Written(db, ToReclaim(key, chain, e), luck), run, Continue(db, run, ToReclaim(key, chain, e), luck).ending)
  {
    hide EndingFits, ReclaimExecution;
    if ReclaimExecution(db, e).Ok? {
      ReclaimRows(db, e);
    }
    ErrorFits(Written(db, ToReclaim(key, chain, e), luck), run, Continue(db, run, ToReclaim(key, chain, e), luck).ending);
  }

  lemma RecordEnds(db: Db, run: Id, key: Key, chain: Chain, e: Id, record: Id, luck: Luck)
    requires Consistent(db) && Linked(db) && PcFits(db, run, ToRecord(key, chain, e, record)) && OwnFits(db, ToRecord(key, chain, e, record))
    requires Continue(db, run, ToRecord(key, chain, e, record), luck).Leaving?
    ensures EndingFits(Written(db, ToRecord(key, chain, e, record), luck), run, Continue(db, run, ToRecord(key, chain, e, record), luck).ending)
  {
    hide Consistent, Linked, ChainFits, ChainStands, EndingFits, History, RecordSuccess, Written;
    var pc := ToRecord(key, chain, e, record);
    var ending := Continue(db, run, pc, luck).ending;
    if ending.Executed? {
      WrittenKeeps(db, pc, luck);
      RecordReplay(db, run, key, chain, e, record);
      RecordWrites(db, key, chain, e, record, luck);
      ChainKept(db, Written(db, pc, luck), run, key);
      SettledReplayFits(Written(db, pc, luck), run, key, e, ending);
    } else {
      ErrorFits(Written(db, pc, luck), run, ending);
    }
  }

  lemma RecordWrites(db: Db, key: Key, chain: Chain, e: Id, record: Id, luck: Luck)
    requires RecordSuccess(db, e, SettlementOf(chain, record)).Ok?
    ensures Written(db, ToRecord(key, chain, e, record), luck) == RecordSuccess(db, e, SettlementOf(chain, record)).value.0
  {
    hide RecordSuccess;
  }

  lemma SettledReplayFits(db: Db, run: Id, key: Key, e: Id, ending: Ending)
    requires ChainStands(db, run, key) && e in db.executions && db.executions[e].status == Done && ending.Executed?
    requires db.executions[e].result == Some(ExecutionResult(ending.record, ending.orderRefunded))
    requires var ex := db.executions[e]; Key(ex.proposal, ex.version, ex.action) == key
    ensures EndingFits(db, run, ending)
  {
    assert IsResultOf(db, run, ending, db.executions[e]);
  }

  lemma RecordReplay(db: Db, run: Id, key: Key, chain: Chain, e: Id, record: Id)
    requires Linked(db) && ChainStands(db, run, key) && ChainFits(db, run, chain) && OwnFits(db, ToRecord(key, chain, e, record))
    requires RecordSuccess(db, e, SettlementOf(chain, record)).Ok?
    ensures var (db', success) := RecordSuccess(db, e, SettlementOf(chain, record)).value;
            && e in db'.executions && db'.executions[e].status == Done
            && db'.executions[e].result == Some(ExecutionResult(success.record, success.orderRefunded))
            && var ex := db'.executions[e]; Key(ex.proposal, ex.version, ex.action) == key
  {
    hide RecordSuccess;
    SuccessRows(db, e, SettlementOf(chain, record));
    ClaimsDecidedAt(db, e);
  }

  lemma ClaimsDecidedAt(db: Db, e: Id)
    requires Linked(db) && e in db.executions
    ensures db.executions[e].key == Key(db.executions[e].proposal, db.executions[e].version, db.executions[e].action)
  {
    assert ClaimDecided(db, db.executions[e]);
  }

  // ---- The whole process ------------------------------------------------------------------

  lemma ClaimsKept(db: Db, db': Db)
    requires ClaimsDecided(db) && History(db, db')
    requires forall e :: e in db'.executions && e !in db.executions ==> ClaimDecided(db', db'.executions[e])
    ensures ClaimsDecided(db')
  {
    forall e | e in db'.executions
      ensures ClaimDecided(db', db'.executions[e])
    {
      if e in db.executions {
        assert ClaimDecided(db, db.executions[e]) && ExecutionKept(db.executions[e], db'.executions[e]);
        DecidedKept(db, db', db.executions[e].proposal, db.executions[e].version);
      }
    }
  }

  lemma WrittenClaimsDecided(db: Db, run: Id, pc: Pc, luck: Luck)
    requires Consistent(db) && Linked(db) && PcFits(db, run, pc) && OwnFits(db, pc)
    ensures ClaimsDecided(Written(db, pc, luck))
  {
    hide Consistent, Linked, History, Written, PcFits, OwnFits;
    WrittenKeeps(db, pc, luck);
    var db' := Written(db, pc, luck);
    forall e | e in db'.executions && e !in db.executions
      ensures ClaimDecided(db', db'.executions[e])
    {
      WrittenClaims(db, pc, luck, e);
      ClaimOfChain(db, db', run, pc, e);
    }
    LinkedClaims(db);
    ClaimsKept(db, db');
  }

  lemma LinkedClaims(db: Db)
    requires Linked(db)
    ensures ClaimsDecided(db)
  {
  }

  lemma ClaimOfChain(db: Db, db': Db, run: Id, pc: Pc, e: Id)
    requires Linked(db) && PcFits(db, run, pc) && pc.ToClaim? && History(db, db') && e in db'.executions
    requires ChainMatches(db'.executions[e], pc.chain.proposal, pc.chain.decision.decidedVersion, pc.chain.row.action)
    requires db'.executions[e].key == pc.key
    ensures ClaimDecided(db', db'.executions[e])
  {
    hide Linked, History;
    ChainIsKey(db, run, pc.key, pc.chain);
    DecidedKept(db, db', pc.chain.proposal, pc.chain.decision.decidedVersion);
  }

  lemma PaidOutKept(db: Db, db': Db)
    requires FullPaidOut(db) && VersionsOfRecords(db) && History(db, db') && db'.refunds == db.refunds
    ensures FullPaidOut(db')
  {
    forall i | 0 <= i < |db'.refunds|
      ensures PaidOut(db', db'.refunds[i])
    {
      assert PaidOut(db, db.refunds[i]);
    }
  }

  predicate VersionsOfRecords(db: Db) {
    forall i :: 0 <= i < |db.refunds| ==> db.refunds[i].version in db.versions
  }

  lemma RecordsHaveVersions(db: Db)
    requires RecordsAgree(db)
    ensures VersionsOfRecords(db)
  {
    forall i | 0 <= i < |db.refunds|
      ensures db.refunds[i].version in db.versions
    {
      assert RecordFits(db, Refund, db.refunds[i]);
    }
  }

  /** Only the recording of a success writes a refund. */
  lemma OtherStepsKeepRefunds(db: Db, step: Step)
    requires FlagsAgree(db.runs) && OneActive(db.proposals) && !step.Succeed?
    ensures Apply(db, step).refunds == db.refunds
  {
    hide CreateWorkflow, DecideApproval;
    match step
    case Create(request, ids) => CreateKeepsRefunds(db, request, ids);
    case Decide(id, verdict, decisionId, versionId) => DecideKeepsRefunds(db, id, verdict, decisionId, versionId);
    case AddOrder(_, _) =>
    case _ => AdvancingKeepsRefunds(db, step);
  }

  lemma AdvancingKeepsRefunds(db: Db, step: Step)
    requires FlagsAgree(db.runs) && OneActive(db.proposals) && IsAdvancing(step)
    ensures Apply(db, step).refunds == db.refunds
  {
    hide Apply;
    if Apply(db, step) != db {
      AdvancingStepAdvances(db, step);
    }
  }

  lemma CreateKeepsRefunds(db: Db, request: Request, ids: NewIds)
    ensures Committed(db, CreateWorkflow(db, request, ids)).refunds == db.refunds
    ensures Committed(db, CreateWorkflow(db, request, ids)).executions == db.executions
  {
  }

  lemma DecideKeepsRefunds(db: Db, id: Id, verdict: Verdict, decisionId: Id, versionId: Id)
    ensures Committed(db, DecideApproval(db, id, verdict, decisionId, versionId)).refunds == db.refunds
    ensures Committed(db, DecideApproval(db, id, verdict, decisionId, versionId)).executions == db.executions
  {
    hide ResolveVersion;
  }

  lemma EnvironmentKeepsExecutions(db: Db, step: Step)
    requires !IsExecutorCall(step)
    ensures Apply(db, step).executions == db.executions
  {
    hide CreateWorkflow, DecideApproval, MoveProposal, MoveRun, Audited;
    match step
    case Create(request, ids) => CreateKeepsRefunds(db, request, ids);
    case Decide(id, verdict, decisionId, versionId) => DecideKeepsRefunds(db, id, verdict, decisionId, versionId);
    case FailWorkflow(run, errorCode, retryable) => WorkflowFailureKeepsExecutions(db, run, errorCode, retryable);
    case Move(run, t) => TransitionKeepsExecutions(db, run, t);
    case Append(entry, detailsValid) => AuditKeepsExecutions(db, entry, detailsValid);
    case AddOrder(_, _) =>
    case AddMember(_) =>
    case RemoveMember(_) =>
  }

  lemma AuditKeepsExecutions(db: Db, entry: AuditEntry, detailsValid: bool)
    ensures Audited(db, entry, detailsValid).Ok? ==> Audited(db, entry, detailsValid).value.executions == db.executions
  {
  }

  lemma WorkflowFailureKeepsExecutions(db: Db, run: Id, errorCode: string, retryable: bool)
    ensures Committed(db, RecordWorkflowFailure(db, run, errorCode, retryable)).executions == db.executions
  {
  }

  lemma TransitionKeepsExecutions(db: Db, run: Id, t: Transition)
    ensures Committed(db, TransitionRun(db, run, t)).executions == db.executions
  {
  }
}
