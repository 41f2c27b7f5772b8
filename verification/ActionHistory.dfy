/** What no later transaction can change. */
module ActionHistory {
  import opened Outcomes
  import opened ActionModel
  import opened ActionTransactions
  import opened ActionInvariants
  import opened ActionPreservation
  import opened SettlementPreservation
  import opened DecisionPreservation
  import opened CreationPreservation
  import opened ActionRuns

  predicate RowsKept<V(==)>(rows: map<Id, V>, rows': map<Id, V>) {
    forall k :: k in rows ==> k in rows' && rows'[k] == rows[k]
  }

  predicate OrdersKept(rows: map<Id, Order>, rows': map<Id, Order>) {
    forall k :: k in rows ==> k in rows' && rows'[k].total == rows[k].total && rows'[k].currency == rows[k].currency
  }

  predicate ApprovalsKept(rows: map<Id, Approval>, rows': map<Id, Approval>) {
    forall k :: k in rows ==> k in rows' && rows'[k].proposal == rows[k].proposal && rows'[k].requestedVersion == rows[k].requestedVersion
  }

  /** A succeeded or cancelled run stays as it is. */
  predicate RunKept(run: Run, run': Run) {
    && run'.workflow == run.workflow && run'.proposal == run.proposal
    && (run.status in {Succeeded, Cancelled} ==> run'.status == run.status)
  }

  predicate RunsKept(rows: map<Id, Run>, rows': map<Id, Run>) {
    forall k :: k in rows ==> k in rows' && RunKept(rows[k], rows'[k])
  }

  /** A rejected or succeeded proposal stays so; a decided one keeps its version. */
  predicate ProposalKept(proposal: Proposal, proposal': Proposal) {
    && proposal'.run == proposal.run && proposal'.order == proposal.order && proposal'.action == proposal.action
    && (proposal.status in {Rejected, ProposalSucceeded} ==> proposal'.status == proposal.status)
    && (proposal.status != AwaitingApproval ==>
          proposal'.status != AwaitingApproval && proposal'.currentVersion == proposal.currentVersion)
  }

  predicate ProposalsKept(rows: map<Id, Proposal>, rows': map<Id, Proposal>) {
    forall k :: k in rows ==> k in rows' && ProposalKept(rows[k], rows'[k])
  }

  /** An execution keeps its chain and its key; a finished one never changes. */
  predicate ExecutionKept(ex: Execution, ex': Execution) {
    && ChainMatches(ex', ex.proposal, ex.version, ex.action) && ex'.key == ex.key
    && ex'.attempts >= ex.attempts
    && (ex.status == Done ==> ex' == ex)
  }

  predicate ExecutionsKept(rows: map<Id, Execution>, rows': map<Id, Execution>) {
    forall k :: k in rows ==> k in rows' && ExecutionKept(rows[k], rows'[k])
  }

  /** The later tables db' contain the history of the earlier tables db. */
  predicate History(db: Db, db': Db) {
    match db case Db(_, _, _, _, _, _, _, _, _, _, _) =>  // a match: one obligation for a caller that hides the body
    && OrdersKept(db.orders, db'.orders)
    && RunsKept(db.runs, db'.runs)
    && ProposalsKept(db.proposals, db'.proposals)
    && RowsKept(db.versions, db'.versions)
    && ApprovalsKept(db.approvals, db'.approvals)
    && RowsKept(db.decisions, db'.decisions)
    && ExecutionsKept(db.executions, db'.executions)
    && db.refunds <= db'.refunds
    && db.compensations <= db'.compensations
    && db.audit <= db'.audit
  }

  lemma HistoryReflexive(db: Db)
    ensures History(db, db)
  {
  }

  lemma HistoryTransitive(a: Db, b: Db, c: Db)
    requires History(a, b) && History(b, c)
    ensures History(a, c)
  {
    RowHistoryTransitive(a, b, c);
    StateHistoryTransitive(a, b, c);
  }

  lemma RowHistoryTransitive(a: Db, b: Db, c: Db)
    requires OrdersKept(a.orders, b.orders) && OrdersKept(b.orders, c.orders)
    requires RowsKept(a.versions, b.versions) && RowsKept(b.versions, c.versions)
    requires RowsKept(a.decisions, b.decisions) && RowsKept(b.decisions, c.decisions)
    requires ApprovalsKept(a.approvals, b.approvals) && ApprovalsKept(b.approvals, c.approvals)
    ensures OrdersKept(a.orders, c.orders) && RowsKept(a.versions, c.versions)
    ensures RowsKept(a.decisions, c.decisions) && ApprovalsKept(a.approvals, c.approvals)
  {
  }

  lemma StateHistoryTransitive(a: Db, b: Db, c: Db)
    requires RunsKept(a.runs, b.runs) && RunsKept(b.runs, c.runs)
    requires ProposalsKept(a.proposals, b.proposals) && ProposalsKept(b.proposals, c.proposals)
    requires ExecutionsKept(a.executions, b.executions) && ExecutionsKept(b.executions, c.executions)
    ensures RunsKept(a.runs, c.runs) && ProposalsKept(a.proposals, c.proposals) && ExecutionsKept(a.executions, c.executions)
  {
    forall k | k in a.proposals
      ensures k in c.proposals && ProposalKept(a.proposals[k], c.proposals[k])
    {
      assert ProposalKept(a.proposals[k], b.proposals[k]) && ProposalKept(b.proposals[k], c.proposals[k]);
    }
    forall k | k in a.executions
      ensures k in c.executions && ExecutionKept(a.executions[k], c.executions[k])
    {
      assert ExecutionKept(a.executions[k], b.executions[k]) && ExecutionKept(b.executions[k], c.executions[k]);
    }
  }

  lemma AdvancesHistory(db: Db, db': Db)
    requires Advances(db, db') && db.audit <= db'.audit
    ensures History(db, db')
  {
    forall k | k in db.proposals
      ensures k in db'.proposals && ProposalKept(db.proposals[k], db'.proposals[k])
    {
      assert ProposalAdvances(db.proposals[k], db'.proposals[k]);
    }
    forall k | k in db.executions
      ensures k in db'.executions && ExecutionKept(db.executions[k], db'.executions[k])
    {
      assert ExecutionAdvances(db.executions[k], db'.executions[k]);
    }
    forall k | k in db.runs
      ensures k in db'.runs && RunKept(db.runs[k], db'.runs[k])
    {
      assert RunAdvances(db.runs[k], db'.runs[k]);
    }
  }

  lemma StoreClaimAudit(db: Db, id: Id, row: Execution, allowed: set<ProposalStatus>)
    requires StoreClaim(db, id, row, allowed).Ok?
    ensures var db' := StoreClaim(db, id, row, allowed).value.0;
            && row.proposal in db.proposals
            && db'.audit == db.audit + [AuditEntry(db.proposals[row.proposal].run, Some(row.proposal), System, ExecutionClaimed, ExecutionResource(id))]
  {
  }

  lemma ReclaimAppends(db: Db, id: Id)
    ensures var db' := Committed(db, ReclaimExecution(db, id)); db.audit <= db'.audit
  {
    if ReclaimExecution(db, id).Ok? && db.executions[id].status in {Claimed, InProgress} {
      StoreClaimAudit(db, id, Reclaimed(db.executions[id]), {Approved, Executing});
    }
  }

  lemma ClaimAppends(db: Db, proposal: Id, version: Id, action: ActionType, key: Key, newId: Id)
    ensures var db' := Committed(db, ClaimExecution(db, proposal, version, action, key, newId));
            db.audit <= db'.audit
  {
    if ClaimExecution(db, proposal, version, action, key, newId).Ok? {
      match ExecutionByKey(db, key)
      case Some(id) =>
        var ex := db.executions[id];
        if ex.status == FailedRetryable {
          StoreClaimAudit(db, id, Reclaimed(ex), {Approved, Executing, ProposalFailed});
        }
      case None =>
        var row := Execution(proposal, version, action, key, Claimed, 1, None, None, false, false);
        StoreClaimAudit(db, newId, row, {Approved, Executing, ProposalFailed});
    }
  }

  lemma FailureAppends(db: Db, id: Id, errorCode: string, retryable: bool)
    ensures var db' := Committed(db, RecordFailure(db, id, errorCode, retryable)); db.audit <= db'.audit
  {
  }

  lemma WorkflowFailureAppends(db: Db, run: Id, errorCode: string, retryable: bool)
    ensures var db' := Committed(db, RecordWorkflowFailure(db, run, errorCode, retryable));
            db.audit <= db'.audit
  {
  }

  lemma TransitionAppends(db: Db, run: Id, t: Transition)
    ensures var db' := Committed(db, TransitionRun(db, run, t)); db.audit <= db'.audit
  {
  }

  /** A step only appends to the audit log. */
  lemma StepAppends(db: Db, step: Step)
    requires IsAdvancing(step)
    ensures db.audit <= Apply(db, step).audit
  {
    match step
    case ClaimStep(proposal, version, action, key, newId) => ClaimAppends(db, proposal, version, action, key, newId);
    case Reclaim(execution) => ReclaimAppends(db, execution);
    case Mark(execution) =>
    case Fail(execution, errorCode, retryable) => FailureAppends(db, execution, errorCode, retryable);
    case FailWorkflow(run, errorCode, retryable) => WorkflowFailureAppends(db, run, errorCode, retryable);
    case Move(run, transition) => TransitionAppends(db, run, transition);
    case Append(entry, detailsValid) =>
    case AddMember(user) =>
    case RemoveMember(user) =>
  }

  lemma DecisionHistory(db: Db, id: Id, verdict: Verdict, decisionId: Id, versionId: Id)
    requires DecisionsAgree(db)
    ensures History(db, Committed(db, DecideApproval(db, id, verdict, decisionId, versionId)))
  {
    var decided := DecideApproval(db, id, verdict, decisionId, versionId);
    if decided.Ok? {
      var inserted := DecisionDecides(db, id, verdict, decisionId, versionId);
      if id !in db.decisions {
        DecidedHistory(db, id, verdict, decisionId, decided.value.1.decision.decidedVersion, inserted);
      }
    }
  }

  lemma DecidedHistory(db: Db, id: Id, verdict: Verdict, decisionId: Id, decided: Id, inserted: Option<Version>)
    requires DecisionsAgree(db) && Decides(db, id, verdict, decided, inserted)
    ensures History(db, DecidedDb(db, id, verdict, decisionId, decided, inserted))
  {
    assert ApprovalAgrees(db, id);
  }

  lemma SettlementHistory(db: Db, id: Id, s: Settlement)
    ensures History(db, Committed(db, RecordSuccess(db, id, s)))
  {
    if RecordSuccess(db, id, s).Ok? {
      SuccessSettles(db, id, s);
      if db.executions[id].status != Done {
        SettledHistory(db, id, s, RecordSuccess(db, id, s).value.1.orderRefunded);
      }
    }
  }

  lemma SettledHistory(db: Db, id: Id, s: Settlement, refunded: bool)
    requires Settles(db, id, s, refunded)
    ensures History(db, SettledDb(db, id, s, refunded))
  {
    SettledStates(db, id, s, refunded);
    assert SettledDb(db, id, s, refunded).decisions == db.decisions;
  }

  lemma SettledStates(db: Db, id: Id, s: Settlement, refunded: bool)
    requires Settles(db, id, s, refunded)
    ensures var db' := SettledDb(db, id, s, refunded);
            && RunsKept(db.runs, db'.runs) && ProposalsKept(db.proposals, db'.proposals)
            && ExecutionsKept(db.executions, db'.executions) && OrdersKept(db.orders, db'.orders)
  {
    hide RunsKept, ProposalsKept;
    SettledRunsKept(db, id, s, refunded);
    SettledProposalsKept(db, id, s, refunded);
  }

  lemma SettledRunsKept(db: Db, id: Id, s: Settlement, refunded: bool)
    requires Settles(db, id, s, refunded)
    ensures RunsKept(db.runs, SettledDb(db, id, s, refunded).runs)
  {
  }

  lemma SettledProposalsKept(db: Db, id: Id, s: Settlement, refunded: bool)
    requires Settles(db, id, s, refunded)
    ensures ProposalsKept(db.proposals, SettledDb(db, id, s, refunded).proposals)
  {
  }

  lemma CreationHistory(db: Db, request: Request, ids: NewIds)
    ensures History(db, Committed(db, CreateWorkflow(db, request, ids)))
  {
    if CreateWorkflow(db, request, ids).Ok? {
      CreationCreates(db, request, ids);
    }
  }

  lemma AddOrderHistory(db: Db, order: Id, row: Order)
    ensures History(db, Apply(db, AddOrder(order, row)))
  {
    hide OrdersKept, RunsKept, ProposalsKept, RowsKept, ApprovalsKept, ExecutionsKept;
    HistoryReflexive(db);
    if order !in db.orders {
      AddedOrderKept(db.orders, order, row);
    }
  }

  lemma AddedOrderKept(orders: map<Id, Order>, order: Id, row: Order)
    requires order !in orders
    ensures OrdersKept(orders, orders[order := row])
  {
  }

  lemma AdvancingHistory(db: Db, step: Step)
    requires FlagsAgree(db.runs) && OneActive(db.proposals) && IsAdvancing(step)
    ensures History(db, Apply(db, step))
  {
    if Apply(db, step) != db {
      AdvancingStepAdvances(db, step);
      StepAppends(db, step);
      AdvancesHistory(db, Apply(db, step));
    }
  }

  lemma StepHistory(db: Db, step: Step)
    requires DecisionsAgree(db) && FlagsAgree(db.runs) && OneActive(db.proposals)
    ensures History(db, Apply(db, step))
  {
    hide History, CreateWorkflow, DecideApproval, RecordSuccess;
    match step
    case Create(request, ids) => CreationHistory(db, request, ids);
    case Decide(id, verdict, decisionId, versionId) => DecisionHistory(db, id, verdict, decisionId, versionId);
    case Succeed(id, s) => SettlementHistory(db, id, s);
    case AddOrder(order, row) => AddOrderHistory(db, order, row);
    case _ => AdvancingHistory(db, step);
  }

  lemma {:induction false} ReachableAgrees(db: Db, steps: seq<Step>)
    requires Consistent(db)
    ensures var db' := Exec(db, steps); DecisionsAgree(db') && FlagsAgree(db'.runs) && OneActive(db'.proposals)
  {
    RunsKeepConsistency(db, steps);
  }

  /** Whatever happens later, what the tables have settled stays settled. */
  lemma {:induction false} RunsKeepHistory(db: Db, steps: seq<Step>)
    requires Consistent(db)
    ensures History(db, Exec(db, steps))
  {
    hide Apply, Consistent, History;
    if steps == [] {
      HistoryReflexive(db);
    } else {
      var before := Exec(db, steps[..|steps| - 1]);
      RunsKeepHistory(db, steps[..|steps| - 1]);
      ReachableAgrees(db, steps[..|steps| - 1]);
      StepHistory(before, steps[|steps| - 1]);
      HistoryTransitive(db, before, Exec(db, steps));
    }
  }
}
