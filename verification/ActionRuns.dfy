/** Runs of the store: any sequence of write transactions, called by anyone with any
    arguments, in any order.  A transaction that raises leaves the tables as they were.

    The workflow graph that drives the store is one such caller, so every theorem here
    holds for it. */
module ActionRuns {
  import opened ActionModel
  import opened ActionTransactions
  import opened ActionInvariants
  import opened ActionPreservation
  import opened SettlementPreservation
  import opened DecisionPreservation
  import opened CreationPreservation

  datatype Step =
    | Create(request: Request, ids: NewIds)
    | Decide(approval: Id, verdict: Verdict, decisionId: Id, versionId: Id)
    | ClaimStep(proposal: Id, version: Id, action: ActionType, key: Key, newId: Id)
    | Reclaim(execution: Id)
    | Mark(execution: Id)
    | Succeed(execution: Id, settlement: Settlement)
    | Fail(execution: Id, errorCode: string, retryable: bool)
    | FailWorkflow(run: Id, errorCode: string, retryable: bool)
    | Move(run: Id, transition: Transition)
    | Append(entry: AuditEntry, detailsValid: bool)
    | AddOrder(order: Id, row: Order)     // the order store
    | AddMember(user: Id)                 // the organization store
    | RemoveMember(user: Id)              // of any member, though foreign keys may refuse it

  function Committed<T>(db: Db, transaction: Transaction<T>): Db {
    if transaction.Ok? then transaction.value.0 else db
  }

  ghost function Apply(db: Db, step: Step): Db {
    match step
    case Create(request, ids) => Committed(db, CreateWorkflow(db, request, ids))
    case Decide(approval, verdict, decisionId, versionId) =>
      Committed(db, DecideApproval(db, approval, verdict, decisionId, versionId))
    case ClaimStep(proposal, version, action, key, newId) =>
      Committed(db, ClaimExecution(db, proposal, version, action, key, newId))
    case Reclaim(execution) => Committed(db, ReclaimExecution(db, execution))
    case Mark(execution) => Committed(db, MarkRunning(db, execution))
    case Succeed(execution, settlement) => Committed(db, RecordSuccess(db, execution, settlement))
    case Fail(execution, errorCode, retryable) => Committed(db, RecordFailure(db, execution, errorCode, retryable))
    case FailWorkflow(run, errorCode, retryable) => Committed(db, RecordWorkflowFailure(db, run, errorCode, retryable))
    case Move(run, transition) => Committed(db, TransitionRun(db, run, transition))
    case Append(entry, detailsValid) => Committed(db, AppendAuditLog(db, entry, detailsValid))
    case AddOrder(order, row) => if order in db.orders then db else db.(orders := db.orders[order := row])
    case AddMember(user) => db.(members := db.members + {user})
    case RemoveMember(user) => db.(members := db.members - {user})
  }

  ghost function Exec(db: Db, steps: seq<Step>): Db {
    if steps == [] then db else Apply(Exec(db, steps[..|steps| - 1]), steps[|steps| - 1])
  }

  /** The workflow tables before the first workflow; orders and members may already exist. */
  ghost predicate Initial(db: Db) {
    && db.runs == map[] && db.proposals == map[] && db.versions == map[] && db.approvals == map[] && db.decisions == map[]
    && db.executions == map[] && db.refunds == [] && db.compensations == [] && db.audit == []
  }

  // ---- Consistency in every reachable state ----------------------------------------------

  lemma {:induction false} NoRecordsNoSum(records: seq<Record>, order: Id)
    requires forall i :: 0 <= i < |records| ==> records[i].order != order
    ensures SumFor(records, order) == 0
  {
    if records != [] {
      NoRecordsNoSum(records[..|records| - 1], order);
    }
  }

  lemma RecordOrdersExist(db: Db)
    requires ProposalsLinked(db) && RecordsAgree(db)
    ensures forall i :: 0 <= i < |db.refunds| ==> db.refunds[i].order in db.orders
    ensures forall i :: 0 <= i < |db.compensations| ==> db.compensations[i].order in db.orders
  {
    forall i | 0 <= i < |db.refunds|
      ensures db.refunds[i].order in db.orders
    {
      assert RecordFits(db, Refund, db.refunds[i]);
    }
    forall i | 0 <= i < |db.compensations|
      ensures db.compensations[i].order in db.orders
    {
      assert RecordFits(db, Compensation, db.compensations[i]);
    }
  }

  lemma AddOrderKeepsReferences(db: Db, order: Id, row: Order)
    requires References(db) && order !in db.orders
    ensures References(db.(orders := db.orders[order := row]))
  {
    var db' := db.(orders := db.orders[order := row]);
    forall v | v in db'.versions
      ensures VersionFits(db', v)
    {
      assert VersionFits(db, v);
    }
  }

  lemma AddOrderKeepsDecisions(db: Db, order: Id, row: Order)
    requires OneApproval(db) && DecisionsAgree(db)
    ensures var db' := db.(orders := db.orders[order := row]); OneApproval(db') && DecisionsAgree(db')
  {
    var db' := db.(orders := db.orders[order := row]);
    forall p | p in db'.proposals
      ensures ApprovalByProposal(db', p).Some?
    {
      assert ApprovalByProposal(db, p).Some?;
      var a := ApprovalByProposal(db, p).value;
      assert a in db'.approvals && db'.approvals[a].proposal == p;
    }
    forall a | a in db'.approvals
      ensures ApprovalAgrees(db', a)
    {
      assert ApprovalAgrees(db, a);
    }
  }

  lemma AddOrderKeepsRecords(db: Db, order: Id, row: Order)
    requires ExecutionsAgree(db) && RunsAgree(db) && RecordsAgree(db) && order !in db.orders
    ensures var db' := db.(orders := db.orders[order := row]); ExecutionsAgree(db') && RunsAgree(db') && RecordsAgree(db')
  {
    var db' := db.(orders := db.orders[order := row]);
    forall e | e in db'.executions
      ensures ExecutionFits(db', e) && (db'.executions[e].status == Done ==> RecordedOnce(db', e))
    {
      assert ExecutionFits(db, e);
      assert RecordsOf(db', db'.executions[e].action) == RecordsOf(db, db.executions[e].action);
      assert db.executions[e].status == Done ==> RecordedOnce(db, e);
    }
    forall i | 0 <= i < |db'.refunds|
      ensures RecordFits(db', Refund, db'.refunds[i])
    {
      assert RecordFits(db, Refund, db.refunds[i]);
    }
    forall i | 0 <= i < |db'.compensations|
      ensures RecordFits(db', Compensation, db'.compensations[i])
    {
      assert RecordFits(db, Compensation, db.compensations[i]);
    }
  }

  lemma AddOrderKeepsMoney(db: Db, order: Id, row: Order)
    requires ProposalsLinked(db) && RecordsAgree(db) && MoneyBounded(db) && order !in db.orders
    ensures MoneyBounded(db.(orders := db.orders[order := row]))
  {
    RecordOrdersExist(db);
    NoRecordsNoSum(db.refunds, order);
    NoRecordsNoSum(db.compensations, order);
  }

  lemma AddOrderKeepsFull(db: Db, order: Id, row: Order)
    requires FullCoversRemaining(db) && RefundedWhenPaidBack(db) && order !in db.orders
    ensures var db' := db.(orders := db.orders[order := row]); FullCoversRemaining(db') && RefundedWhenPaidBack(db')
  {
    var db' := db.(orders := db.orders[order := row]);
    forall a | a in db'.decisions && IsApproving(db'.decisions[a].kind)
      ensures DecidedFullCovers(db', db'.decisions[a].decidedVersion)
    {
      assert DecidedFullCovers(db, db.decisions[a].decidedVersion);
    }
  }

  lemma AddOrderKeeps(db: Db, order: Id, row: Order)
    requires Consistent(db) && order !in db.orders
    ensures Consistent(db.(orders := db.orders[order := row]))
  {
    AddOrderKeepsReferences(db, order, row);
    AddOrderKeepsDecisions(db, order, row);
    AddOrderKeepsRecords(db, order, row);
    AddOrderKeepsMoney(db, order, row);
    AddOrderKeepsFull(db, order, row);
  }

  lemma StepKeeps(db: Db, step: Step)
    requires Consistent(db)
    ensures Consistent(Apply(db, step))
  {
    hide Consistent, CreateWorkflow, DecideApproval, RecordSuccess;
    match step
    case Create(request, ids) => CreateKeeps(db, request, ids);
    case Decide(approval, verdict, decisionId, versionId) => DecideKeeps(db, approval, verdict, decisionId, versionId);
    case Succeed(execution, settlement) => SucceedKeeps(db, execution, settlement);
    case AddOrder(order, row) =>
      if order !in db.orders {
        AddOrderKeeps(db, order, row);
      }
    case _ => AdvancingStepKeeps(db, step);
  }

  lemma CreateKeeps(db: Db, request: Request, ids: NewIds)
    requires Consistent(db)
    ensures Consistent(Committed(db, CreateWorkflow(db, request, ids)))
  {
    if CreateWorkflow(db, request, ids).Ok? {
      CreationCreates(db, request, ids);
      CreationKeeps(db, request, ids, CreateWorkflow(db, request, ids).value.0.audit);
    }
  }

  lemma DecideKeeps(db: Db, id: Id, verdict: Verdict, decisionId: Id, versionId: Id)
    requires Consistent(db)
    ensures Consistent(Committed(db, DecideApproval(db, id, verdict, decisionId, versionId)))
  {
    var decided := DecideApproval(db, id, verdict, decisionId, versionId);
    if decided.Ok? {
      var inserted := DecisionDecides(db, id, verdict, decisionId, versionId);
      if id !in db.decisions {
        DecisionKeeps(db, id, verdict, decisionId, decided.value.1.decision.decidedVersion, inserted);
      }
    }
  }

  lemma SucceedKeeps(db: Db, id: Id, s: Settlement)
    requires Consistent(db)
    ensures Consistent(Committed(db, RecordSuccess(db, id, s)))
  {
    var settled := RecordSuccess(db, id, s);
    if settled.Ok? {
      SuccessSettles(db, id, s);
      if db.executions[id].status != Done {
        SettlementKeeps(db, id, s, settled.value.1.orderRefunded);
      }
    }
  }

  lemma AdvancingStepKeeps(db: Db, step: Step)
    requires Consistent(db) && IsAdvancing(step)
    ensures Consistent(Apply(db, step))
  {
    if Apply(db, step) != db {
      AdvancingStepAdvances(db, step);
      AdvancesKeeps(db, Apply(db, step));
    }
  }

  predicate IsAdvancing(step: Step) {
    !step.Create? && !step.Decide? && !step.Succeed? && !step.AddOrder?
  }

  lemma AdvancingStepAdvances(db: Db, step: Step)
    requires FlagsAgree(db.runs) && OneActive(db.proposals) && IsAdvancing(step) && Apply(db, step) != db
    ensures Advances(db, Apply(db, step))
  {
    match step
    case ClaimStep(proposal, version, action, key, newId) => ClaimAdvances(db, proposal, version, action, key, newId);
    case Reclaim(execution) => ReclaimAdvances(db, execution);
    case Mark(execution) => MarkRunningAdvances(db, execution);
    case Fail(execution, errorCode, retryable) => RecordFailureAdvances(db, execution, errorCode, retryable);
    case FailWorkflow(run, errorCode, retryable) => WorkflowFailureAdvances(db, run, errorCode, retryable);
    case Move(run, transition) => TransitionRunAdvances(db, run, transition);
    case Append(entry, detailsValid) => AppendAuditLogAdvances(db, entry, detailsValid);
    case AddMember(user) =>
    case RemoveMember(user) =>
  }

  /** Every run keeps the tables consistent, whoever calls the store with whatever arguments. */
  lemma {:induction false} RunsKeepConsistency(db: Db, steps: seq<Step>)
    requires Consistent(db)
    ensures Consistent(Exec(db, steps))
  {
    hide Consistent, Apply;
    if steps != [] {
      RunsKeepConsistency(db, steps[..|steps| - 1]);
      StepKeeps(Exec(db, steps[..|steps| - 1]), steps[|steps| - 1]);
    }
  }

  lemma {:induction false} ReachableIsConsistent(db: Db, steps: seq<Step>)
    requires Initial(db)
    ensures Consistent(Exec(db, steps))
  {
    hide Consistent, Exec;
    InitialIsConsistent(db);
    RunsKeepConsistency(db, steps);
  }

  lemma InitialIsConsistent(db: Db)
    requires Initial(db)
    ensures Consistent(db)
  {
    assert References(db) && OneApproval(db) && DecisionsAgree(db);
    assert ExecutionsAgree(db) && RunsAgree(db) && RecordsAgree(db);
    assert MoneyBounded(db);
  }
}
