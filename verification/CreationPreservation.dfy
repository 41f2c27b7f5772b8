/** Creating a workflow keeps the tables consistent. */
module CreationPreservation {
  import opened Text
  import opened ActionModel
  import opened ActionTransactions
  import opened ActionInvariants
  import opened DecisionPreservation

  /** Every check of create_workflow passed. */
  ghost predicate Creates(db: Db, q: Request, ids: NewIds) {
    && IdsFree(db, ids)
    && q.amount > 0
    && ParametersFit(q.action, q.parameters)
    && q.order in db.orders
    && NormalizeCurrency(q.currency) == db.orders[q.order].currency
    && !OrderHasActive(db, q.order, q.action)
  }

  /** The tables after create_workflow. */
  function CreatedDb(db: Db, q: Request, ids: NewIds, audit: seq<AuditEntry>): Db {
    db.(runs := db.runs[ids.run := NewRun(q, ids)],
        proposals := db.proposals[ids.proposal := NewProposal(q, ids)],
        versions := db.versions[ids.version := FirstVersion(q, ids)],
        approvals := db.approvals[ids.approval := Approval(ids.proposal, ids.version, q.creator, Pending, false)],
        audit := audit)
  }

  lemma CreationCreates(db: Db, q: Request, ids: NewIds)
    requires CreateWorkflow(db, q, ids).Ok?
    ensures var (db', _) := CreateWorkflow(db, q, ids).value; Creates(db, q, ids) && db' == CreatedDb(db, q, ids, db'.audit)
  {
  }

  lemma CreatedReferences(db: Db, q: Request, ids: NewIds, audit: seq<AuditEntry>)
    requires References(db) && Creates(db, q, ids)
    ensures References(CreatedDb(db, q, ids, audit))
  {
    hide RunsLinked, ProposalsLinked, ApprovalsLinked, VersionFits, CreatedDb, Creates;
    CreatedRunsLinked(db, q, ids, audit);
    CreatedProposalsLinked(db, q, ids, audit);
    CreatedVersionsFit(db, q, ids, audit);
  }

  lemma CreatedVersionsFit(db: Db, q: Request, ids: NewIds, audit: seq<AuditEntry>)
    requires Creates(db, q, ids) && forall v :: v in db.versions ==> VersionFits(db, v)
    ensures var db' := CreatedDb(db, q, ids, audit); forall v :: v in db'.versions ==> VersionFits(db', v)
  {
    var db' := CreatedDb(db, q, ids, audit);
    forall v | v in db'.versions
      ensures VersionFits(db', v)
    {
      assert v in db.versions ==> VersionFits(db, v);
    }
  }

  lemma CreatedRunsLinked(db: Db, q: Request, ids: NewIds, audit: seq<AuditEntry>)
    requires RunsLinked(db) && Creates(db, q, ids)
    ensures RunsLinked(CreatedDb(db, q, ids, audit))
  {
  }

  lemma CreatedProposalsLinked(db: Db, q: Request, ids: NewIds, audit: seq<AuditEntry>)
    requires ProposalsLinked(db) && ApprovalsLinked(db) && Creates(db, q, ids)
    ensures ProposalsLinked(CreatedDb(db, q, ids, audit)) && ApprovalsLinked(CreatedDb(db, q, ids, audit))
  {
  }

  lemma CreatedOneApproval(db: Db, q: Request, ids: NewIds, audit: seq<AuditEntry>)
    requires OneApproval(db) && ApprovalsLinked(db) && Creates(db, q, ids)
    ensures OneApproval(CreatedDb(db, q, ids, audit))
  {
    var db' := CreatedDb(db, q, ids, audit);
    forall p | p in db'.proposals
      ensures ApprovalByProposal(db', p).Some?
    {
      if p == ids.proposal {
        assert ids.approval in db'.approvals && db'.approvals[ids.approval].proposal == p;
      } else {
        assert ApprovalByProposal(db, p).Some?;
        var a := ApprovalByProposal(db, p).value;
        assert a in db'.approvals && db'.approvals[a].proposal == p;
      }
    }
  }

  lemma CreatedDecisions(db: Db, q: Request, ids: NewIds, audit: seq<AuditEntry>)
    requires DecisionsAgree(db) && Creates(db, q, ids)
    ensures DecisionsAgree(CreatedDb(db, q, ids, audit))
  {
    var db' := CreatedDb(db, q, ids, audit);
    forall a | a in db'.approvals
      ensures ApprovalAgrees(db', a)
    {
      assert a in db.approvals ==> ApprovalAgrees(db, a);
    }
  }

  lemma CreatedNumbered(db: Db, q: Request, ids: NewIds, audit: seq<AuditEntry>)
    requires Numbered(db.versions) && (forall v :: v in db.versions ==> VersionFits(db, v)) && Creates(db, q, ids)
    ensures Numbered(CreatedDb(db, q, ids, audit).versions)
  {
    assert VersionNumbers(db.versions, ids.proposal) == {};
    NextVersionKeepsNumbers(db.versions, ids.version, FirstVersion(q, ids));
  }

  lemma CreatedExecutions(db: Db, q: Request, ids: NewIds, audit: seq<AuditEntry>)
    requires ExecutionsAgree(db) && Creates(db, q, ids)
    ensures ExecutionsAgree(CreatedDb(db, q, ids, audit))
  {
    var db' := CreatedDb(db, q, ids, audit);
    forall e | e in db'.executions
      ensures ExecutionFits(db', e)
    {
      assert ExecutionFits(db, e);
    }
  }

  lemma CreatedRuns(db: Db, q: Request, ids: NewIds, audit: seq<AuditEntry>)
    requires RunsAgree(db) && Creates(db, q, ids)
    ensures RunsAgree(CreatedDb(db, q, ids, audit))
  {
  }

  lemma CreatedSuccesses(db: Db, q: Request, ids: NewIds, audit: seq<AuditEntry>)
    requires SuccessesExecuted(db) && Creates(db, q, ids)
    ensures SuccessesExecuted(CreatedDb(db, q, ids, audit))
  {
  }

  lemma CreatedRecords(db: Db, q: Request, ids: NewIds, audit: seq<AuditEntry>)
    requires RecordsAgree(db) && Creates(db, q, ids)
    ensures RecordsAgree(CreatedDb(db, q, ids, audit))
  {
    var db' := CreatedDb(db, q, ids, audit);
    forall i | 0 <= i < |db'.refunds|
      ensures RecordFits(db', Refund, db'.refunds[i])
    {
      assert RecordFits(db, Refund, db.refunds[i]);
    }
    forall i | 0 <= i < |db'.compensations|
      ensures RecordFits(db', Compensation, db'.compensations[i])
    {
      assert RecordFits(db, Compensation, db.compensations[i]);
    }
    forall e | e in db'.executions && db'.executions[e].status == Done
      ensures RecordedOnce(db', e)
    {
      assert RecordedOnce(db, e);
      assert RecordsOf(db', db'.executions[e].action) == RecordsOf(db, db.executions[e].action);
    }
  }

  lemma CreatedMoney(db: Db, q: Request, ids: NewIds, audit: seq<AuditEntry>)
    requires MoneyBounded(db) && RefundedWhenPaidBack(db)
    ensures MoneyBounded(CreatedDb(db, q, ids, audit)) && RefundedWhenPaidBack(CreatedDb(db, q, ids, audit))
  {
  }

  lemma CreatedActive(db: Db, q: Request, ids: NewIds, audit: seq<AuditEntry>)
    requires OneActive(db.proposals) && Creates(db, q, ids)
    ensures OneActive(CreatedDb(db, q, ids, audit).proposals)
  {
    var proposals := CreatedDb(db, q, ids, audit).proposals;
    forall p, q | p in proposals && q in proposals && CompeteForOrder(proposals[p], proposals[q])
      ensures p == q
    {
      assert p in db.proposals && q in db.proposals ==> CompeteForOrder(db.proposals[p], db.proposals[q]);
    }
  }

  lemma CreatedFull(db: Db, q: Request, ids: NewIds, audit: seq<AuditEntry>)
    requires FullCoversRemaining(db) && Creates(db, q, ids)
    requires DecidedVersionsKept(db)
    ensures FullCoversRemaining(CreatedDb(db, q, ids, audit))
  {
    var db' := CreatedDb(db, q, ids, audit);
    forall a | a in db'.decisions && IsApproving(db'.decisions[a].kind)
      ensures DecidedFullCovers(db', db'.decisions[a].decidedVersion)
    {
      assert DecidedFullCovers(db, db.decisions[a].decidedVersion);
    }
  }

  lemma CreationKeeps(db: Db, q: Request, ids: NewIds, audit: seq<AuditEntry>)
    requires Consistent(db) && Creates(db, q, ids)
    ensures Consistent(CreatedDb(db, q, ids, audit))
  {
    DecisionsKeepVersions(db);
    CreatedReferences(db, q, ids, audit);
    CreatedOneApproval(db, q, ids, audit);
    CreatedDecisions(db, q, ids, audit);
    CreatedNumbered(db, q, ids, audit);
    CreatedExecutions(db, q, ids, audit);
    CreatedRuns(db, q, ids, audit);
    CreatedSuccesses(db, q, ids, audit);
    CreatedRecords(db, q, ids, audit);
    CreatedMoney(db, q, ids, audit);
    CreatedActive(db, q, ids, audit);
    CreatedFull(db, q, ids, audit);
  }
}
