/** Every transaction keeps the tables consistent.

    All transactions but three (create_workflow, decide_approval, and the recording of a
    success) only advance the status columns of runs, proposals and executions and add
    claimed rows; Advances says that once, and one lemma per invariant uses it. */
module ActionPreservation {
  import opened Outcomes
  import opened ActionModel
  import opened ActionTransactions
  import opened ActionInvariants

  // ---- Transactions that only advance statuses --------------------------------------

  predicate FixedTables(db: Db, db': Db) {
    && db'.orders == db.orders && db'.versions == db.versions && db'.approvals == db.approvals
    && db'.decisions == db.decisions && db'.refunds == db.refunds && db'.compensations == db.compensations
  }

  predicate RunAdvances(run: Run, run': Run) {
    && run' == run.(status := run'.status, errorCode := run'.errorCode, errorRetryable := run'.errorRetryable,
                    completed := run'.completed)
    && (run.status == Succeeded ==> run'.status == Succeeded)
    && (run.status == Cancelled ==> run'.status == Cancelled)
    && RunFlagsAgree(run')
  }

  ghost predicate RunsAdvance(runs: map<Id, Run>, runs': map<Id, Run>) {
    runs'.Keys == runs.Keys && forall r :: r in runs ==> RunAdvances(runs[r], runs'[r])
  }

  predicate ProposalAdvances(proposal: Proposal, proposal': Proposal) {
    && proposal' == proposal.(status := proposal'.status)
    && (|| proposal'.status == proposal.status
        || (proposal.status in {Approved, Executing, ProposalFailed} && proposal'.status in {Executing, ProposalFailed}))
  }

  ghost predicate ProposalsAdvance(proposals: map<Id, Proposal>, proposals': map<Id, Proposal>) {
    proposals'.Keys == proposals.Keys && forall p :: p in proposals ==> ProposalAdvances(proposals[p], proposals'[p])
  }

  predicate ExecutionAdvances(ex: Execution, ex': Execution) {
    && ChainMatches(ex', ex.proposal, ex.version, ex.action)
    && ex'.key == ex.key
    && ex'.attempts >= ex.attempts
    && ex'.result == ex.result
    && (ex.status == Done ==> ex' == ex)
    && (ex'.status == Done ==> ex.status == Done)
  }

  /** Rows are kept, and at most one claimed row with a new key and a new version is added. */
  ghost predicate ExecutionsAdvance(executions: map<Id, Execution>, executions': map<Id, Execution>) {
    && (forall e :: e in executions ==> e in executions' && ExecutionAdvances(executions[e], executions'[e]))
    && (forall e :: e in executions' && e !in executions ==> IsFirstClaim(executions, executions'[e]))
    && (forall e, f :: e in executions' && f in executions' && e !in executions && f !in executions ==> e == f)
  }

  ghost predicate IsFirstClaim(executions: map<Id, Execution>, ex: Execution) {
    && ex.status == Claimed
    && forall e :: e in executions ==> executions[e].key != ex.key && executions[e].version != ex.version
  }

  ghost predicate Advances(db: Db, db': Db) {
    && FixedTables(db, db')
    && RunsAdvance(db.runs, db'.runs)
    && ProposalsAdvance(db.proposals, db'.proposals)
    && ExecutionsAdvance(db.executions, db'.executions)
    && (forall e :: e in db'.executions && e !in db.executions ==> ExecutionFits(db', e))
    && OneActive(db'.proposals)
  }

  lemma AdvanceReferences(db: Db, db': Db)
    requires References(db) && FixedTables(db, db') && RunsAdvance(db.runs, db'.runs) && ProposalsAdvance(db.proposals, db'.proposals)
    ensures References(db')
  {
    forall v | v in db'.versions
      ensures VersionFits(db', v)
    {
      assert VersionFits(db, v);
    }
  }

  lemma AdvanceOneApproval(db: Db, db': Db)
    requires OneApproval(db) && FixedTables(db, db') && ProposalsAdvance(db.proposals, db'.proposals)
    ensures OneApproval(db')
  {
    forall p | p in db'.proposals
      ensures ApprovalByProposal(db', p).Some?
    {
      assert ApprovalByProposal(db, p).Some?;
      var a := ApprovalByProposal(db, p).value;
      assert a in db'.approvals && db'.approvals[a].proposal == p;
    }
  }

  lemma AdvanceDecisions(db: Db, db': Db)
    requires DecisionsAgree(db) && FixedTables(db, db') && ProposalsAdvance(db.proposals, db'.proposals)
    ensures DecisionsAgree(db')
  {
    forall a | a in db'.approvals
      ensures ApprovalAgrees(db', a)
    {
      assert ApprovalAgrees(db, a);
      var p := db.approvals[a].proposal;
      assert ProposalAdvances(db.proposals[p], db'.proposals[p]);
    }
  }

  lemma AdvanceExecutions(db: Db, db': Db)
    requires ExecutionsAgree(db) && FixedTables(db, db') && ProposalsAdvance(db.proposals, db'.proposals)
    requires ExecutionsAdvance(db.executions, db'.executions)
    requires forall e :: e in db'.executions && e !in db.executions ==> ExecutionFits(db', e)
    ensures ExecutionsAgree(db')
  {
    hide OneDone, ExecutionFits;
    forall e | e in db'.executions
      ensures ExecutionFits(db', e)
    {
      if e in db.executions {
        AdvanceExecution(db, db', e);
      }
    }
    AdvanceOneDone(db.executions, db'.executions);
  }

  lemma AdvanceExecution(db: Db, db': Db, e: Id)
    requires e in db.executions && ExecutionFits(db, e) && FixedTables(db, db') && ProposalsAdvance(db.proposals, db'.proposals)
    requires ExecutionsAdvance(db.executions, db'.executions)
    ensures e in db'.executions && ExecutionFits(db', e)
  {
    assert ExecutionAdvances(db.executions[e], db'.executions[e]);
    var p := db.executions[e].proposal;
    assert ProposalAdvances(db.proposals[p], db'.proposals[p]);
  }

  lemma AdvanceOneDone(executions: map<Id, Execution>, executions': map<Id, Execution>)
    requires OneDone(executions) && ExecutionsAdvance(executions, executions')
    ensures OneDone(executions')
  {
    forall e, f | e in executions' && f in executions' && BothDone(executions'[e], executions'[f])
      ensures e == f
    {
      assert BothDone(executions[e], executions[f]);
    }
  }

  lemma AdvanceRuns(db: Db, db': Db)
    requires References(db) && RunsAgree(db) && RunsAdvance(db.runs, db'.runs) && ProposalsAdvance(db.proposals, db'.proposals)
    ensures RunsAgree(db')
  {
    forall p | p in db'.proposals && db'.proposals[p].status == ProposalSucceeded
      ensures db'.proposals[p].run in db'.runs && db'.runs[db'.proposals[p].run].status == Succeeded
    {
      assert ProposalAdvances(db.proposals[p], db'.proposals[p]);
      var r := db.proposals[p].run;
      assert RunAdvances(db.runs[r], db'.runs[r]);
    }
    forall r | r in db'.runs
      ensures RunFlagsAgree(db'.runs[r])
    {
      assert RunAdvances(db.runs[r], db'.runs[r]);
    }
  }

  lemma AdvanceSuccesses(db: Db, db': Db)
    requires SuccessesExecuted(db) && ProposalsAdvance(db.proposals, db'.proposals) && ExecutionsAdvance(db.executions, db'.executions)
    ensures SuccessesExecuted(db')
  {
    forall p | p in db'.proposals && db'.proposals[p].status == ProposalSucceeded
      ensures IsExecuted(db'.executions, p)
    {
      assert ProposalAdvances(db.proposals[p], db'.proposals[p]);
      var e :| e in db.executions && db.executions[e].status == Done && db.executions[e].proposal == p;
      assert ExecutionAdvances(db.executions[e], db'.executions[e]);
    }
  }

  lemma AdvanceRecords(db: Db, db': Db)
    requires RecordsAgree(db) && FixedTables(db, db') && ProposalsAdvance(db.proposals, db'.proposals)
    requires ExecutionsAdvance(db.executions, db'.executions)
    ensures RecordsAgree(db')
  {
    forall i | 0 <= i < |db'.refunds|
      ensures RecordFits(db', Refund, db'.refunds[i])
    {
      AdvanceRecordFits(db, db', Refund, db.refunds[i]);
    }
    forall i | 0 <= i < |db'.compensations|
      ensures RecordFits(db', Compensation, db'.compensations[i])
    {
      AdvanceRecordFits(db, db', Compensation, db.compensations[i]);
    }
    forall e | e in db'.executions && db'.executions[e].status == Done
      ensures RecordedOnce(db', e)
    {
      assert e in db.executions;
      assert ExecutionAdvances(db.executions[e], db'.executions[e]);
      assert RecordedOnce(db, e);
      assert RecordsOf(db', db'.executions[e].action) == RecordsOf(db, db.executions[e].action);
    }
  }

  lemma AdvanceRecordFits(db: Db, db': Db, action: ActionType, record: Record)
    requires RecordFits(db, action, record) && FixedTables(db, db') && ProposalsAdvance(db.proposals, db'.proposals)
    requires ExecutionsAdvance(db.executions, db'.executions)
    ensures RecordFits(db', action, record)
  {
    assert ExecutionAdvances(db.executions[record.execution], db'.executions[record.execution]);
    assert ProposalAdvances(db.proposals[record.proposal], db'.proposals[record.proposal]);
  }

  lemma AdvanceMoney(db: Db, db': Db)
    requires MoneyBounded(db) && FixedTables(db, db')
    ensures MoneyBounded(db')
  {
  }

  lemma AdvanceFull(db: Db, db': Db)
    requires FullCoversRemaining(db) && FixedTables(db, db') && ProposalsAdvance(db.proposals, db'.proposals)
    ensures FullCoversRemaining(db')
  {
    forall a | a in db'.decisions && IsApproving(db'.decisions[a].kind)
      ensures DecidedFullCovers(db', db'.decisions[a].decidedVersion)
    {
      var v := db.decisions[a].decidedVersion;
      assert DecidedFullCovers(db, v);
      if v in db.versions && IsFullRefund(db.versions[v]) {
        var p := db.versions[v].proposal;
        assert ProposalAdvances(db.proposals[p], db'.proposals[p]);
      }
    }
  }

  lemma AdvanceRefunded(db: Db, db': Db)
    requires RefundedWhenPaidBack(db) && FixedTables(db, db')
    ensures RefundedWhenPaidBack(db')
  {
  }

  lemma AdvancesKeeps(db: Db, db': Db)
    requires Consistent(db) && Advances(db, db')
    ensures Consistent(db')
  {
    AdvanceReferences(db, db');
    AdvanceOneApproval(db, db');
    AdvanceDecisions(db, db');
    AdvanceExecutions(db, db');
    AdvanceRuns(db, db');
    AdvanceSuccesses(db, db');
    AdvanceRecords(db, db');
    AdvanceMoney(db, db');
    AdvanceFull(db, db');
    AdvanceRefunded(db, db');
  }

  // ---- The seven advancing transactions ------------------------------------------------

  lemma MoveProposalAdvances(db: Db, proposal: Id, allowed: set<ProposalStatus>, status: ProposalStatus)
    requires OneActive(db.proposals) && allowed <= {Approved, Executing, ProposalFailed} && status in {Executing, ProposalFailed}
    requires MoveProposal(db, proposal, allowed, status).Ok?
    ensures var db' := MoveProposal(db, proposal, allowed, status).value;
            ProposalsAdvance(db.proposals, db'.proposals) && OneActive(db'.proposals)
  {
    var db' := MoveProposal(db, proposal, allowed, status).value;
    forall p, q | p in db'.proposals && q in db'.proposals && CompeteForOrder(db'.proposals[p], db'.proposals[q])
      ensures p == q
    {
      if p != proposal && q != proposal {
        assert CompeteForOrder(db.proposals[p], db.proposals[q]);
      }
    }
  }

  lemma UpdatedExecutionAdvances(executions: map<Id, Execution>, id: Id, row: Execution)
    requires id in executions && ExecutionAdvances(executions[id], row)
    ensures ExecutionsAdvance(executions, executions[id := row])
  {
  }

  lemma MovedRunAdvances(runs: map<Id, Run>, run: Id, status: RunStatus, errorCode: Option<string>, retryable: bool)
    requires run in runs && runs[run].status !in {Succeeded, Cancelled}
    requires FlagsAgree(runs)
    ensures RunsAdvance(runs, runs[run := RunMoved(runs[run], status, errorCode, retryable)])
  {
  }

  lemma EndFailedAdvances(db: Db, proposal: Id, run: Id, allowed: set<RunStatus>, errorCode: string, retryable: bool)
    requires FlagsAgree(db.runs) && OneActive(db.proposals)
    requires allowed !! {Succeeded, Cancelled}
    requires EndFailed(db, proposal, run, allowed, errorCode, retryable).Ok?
    ensures var db' := EndFailed(db, proposal, run, allowed, errorCode, retryable).value;
            && FixedTables(db, db') && db'.executions == db.executions
            && RunsAdvance(db.runs, db'.runs) && ProposalsAdvance(db.proposals, db'.proposals) && OneActive(db'.proposals)
  {
    MoveProposalAdvances(db, proposal, {Approved, Executing, ProposalFailed}, ProposalFailed);
    MovedRunAdvances(db.runs, run, Failed, Some(errorCode), retryable);
  }

  lemma MarkRunningAdvances(db: Db, id: Id)
    requires FlagsAgree(db.runs) && OneActive(db.proposals) && MarkRunning(db, id).Ok?
    ensures Advances(db, MarkRunning(db, id).value.0)
  {
    var ex := MarkRunning(db, id).value.1;
    if db.executions[id].status == Claimed {
      UpdatedExecutionAdvances(db.executions, id, ex);
    }
  }

  lemma TransitionRunAdvances(db: Db, run: Id, t: Transition)
    requires FlagsAgree(db.runs) && OneActive(db.proposals) && TransitionRun(db, run, t).Ok?
    ensures Advances(db, TransitionRun(db, run, t).value.0)
  {
    MovedRunAdvances(db.runs, run, t.status, t.errorCode, t.retryable);
  }

  lemma AppendAuditLogAdvances(db: Db, entry: AuditEntry, detailsValid: bool)
    requires FlagsAgree(db.runs) && OneActive(db.proposals) && AppendAuditLog(db, entry, detailsValid).Ok?
    ensures Advances(db, AppendAuditLog(db, entry, detailsValid).value.0)
  {
  }

  lemma WorkflowFailureAdvances(db: Db, run: Id, errorCode: string, retryable: bool)
    requires FlagsAgree(db.runs) && OneActive(db.proposals) && RecordWorkflowFailure(db, run, errorCode, retryable).Ok?
    ensures Advances(db, RecordWorkflowFailure(db, run, errorCode, retryable).value.0)
  {
    hide EndFailed, Audited;
    if db.runs[run].status == Running {
      var proposal := db.runs[run].proposal;
      EndFailedAdvances(db, proposal.value, run, {Running}, errorCode, retryable);
      AuditedKeepsTables(EndFailed(db, proposal.value, run, {Running}, errorCode, retryable).value,
                         AuditEntry(run, proposal, System, RunFailed, RunResource(run)), true);
    }
  }

  lemma AuditedKeepsTables(db: Db, entry: AuditEntry, detailsValid: bool)
    requires Audited(db, entry, detailsValid).Ok?
    ensures var db' := Audited(db, entry, detailsValid).value;
            FixedTables(db, db') && db'.runs == db.runs && db'.proposals == db.proposals && db'.executions == db.executions
  {
  }

  lemma FailureAuditedKeepsTables(db: Db, proposal: Id, run: Id, execution: Id)
    requires FailureAudited(db, proposal, run, execution).Ok?
    ensures var db' := FailureAudited(db, proposal, run, execution).value;
            FixedTables(db, db') && db'.runs == db.runs && db'.proposals == db.proposals && db'.executions == db.executions
  {
  }

  lemma RecordFailureAdvances(db: Db, id: Id, errorCode: string, retryable: bool)
    requires FlagsAgree(db.runs) && OneActive(db.proposals) && RecordFailure(db, id, errorCode, retryable).Ok?
    ensures Advances(db, RecordFailure(db, id, errorCode, retryable).value.0)
  {
    hide EndFailed, FailureAudited;
    var ex := db.executions[id];
    if ex.status == InProgress {
      var row := FailedExecution(ex, errorCode, retryable);
      UpdatedExecutionAdvances(db.executions, id, row);
      EndFailedAdvances(db.(executions := db.executions[id := row]), ex.proposal, db.proposals[ex.proposal].run,
                        {Queued, Running, Awaiting, Failed}, errorCode, retryable);
      var ended := EndFailed(db.(executions := db.executions[id := row]), ex.proposal, db.proposals[ex.proposal].run,
                             {Queued, Running, Awaiting, Failed}, errorCode, retryable).value;
      FailureAuditedKeepsTables(ended, ex.proposal, db.proposals[ex.proposal].run, id);
    }
  }

  lemma StoreClaimAdvances(db: Db, id: Id, row: Execution, allowed: set<ProposalStatus>)
    requires OneActive(db.proposals) && StoreClaim(db, id, row, allowed).Ok?
    requires allowed <= {Approved, Executing, ProposalFailed}
    requires ExecutionsAdvance(db.executions, db.executions[id := row])
    ensures var db' := StoreClaim(db, id, row, allowed).value.0;
            && FixedTables(db, db') && db'.runs == db.runs && db'.executions == db.executions[id := row]
            && ProposalsAdvance(db.proposals, db'.proposals) && OneActive(db'.proposals)
            && row.proposal in db'.proposals && db'.proposals[row.proposal].status == Executing
  {
    MoveProposalAdvances(db.(executions := db.executions[id := row]), row.proposal, allowed, Executing);
  }

  lemma ReclaimAdvances(db: Db, id: Id)
    requires FlagsAgree(db.runs) && OneActive(db.proposals) && ReclaimExecution(db, id).Ok?
    ensures Advances(db, ReclaimExecution(db, id).value.0)
  {
    var ex := db.executions[id];
    if ex.status == Claimed || ex.status == InProgress {
      UpdatedExecutionAdvances(db.executions, id, Reclaimed(ex));
      StoreClaimAdvances(db, id, Reclaimed(ex), {Approved, Executing});
    }
  }

  lemma ClaimAdvances(db: Db, proposal: Id, version: Id, action: ActionType, key: Key, newId: Id)
    requires FlagsAgree(db.runs) && OneActive(db.proposals) && ClaimExecution(db, proposal, version, action, key, newId).Ok?
    ensures Advances(db, ClaimExecution(db, proposal, version, action, key, newId).value.0)
  {
    hide StoreClaim, OneActive;
    match ExecutionByKey(db, key)
    case Some(id) =>
      var ex := db.executions[id];
      if ex.status == FailedRetryable {
        UpdatedExecutionAdvances(db.executions, id, Reclaimed(ex));
        StoreClaimAdvances(db, id, Reclaimed(ex), {Approved, Executing, ProposalFailed});
      }
    case None =>
      var row := Execution(proposal, version, action, key, Claimed, 1, None, None, false, false);
      assert IsFirstClaim(db.executions, row);
      StoreClaimAdvances(db, newId, row, {Approved, Executing, ProposalFailed});
  }
}
