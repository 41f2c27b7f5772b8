/** Recording a decision keeps the tables consistent. */
module DecisionPreservation {
  import opened Outcomes
  import opened Numbering
  import opened ActionModel
  import opened ActionTransactions
  import opened ActionInvariants

  /** Every check of decide_approval passed for an undecided approval: `inserted` is the
      next version of a changed approval, `decided` the version the decision adopts. */
  ghost predicate Decides(db: Db, id: Id, verdict: Verdict, decided: Id, inserted: Option<Version>) {
    && id in db.approvals && id !in db.decisions && db.approvals[id].status == Pending
    && var approval := db.approvals[id];
    && approval.proposal in db.proposals
    && approval.requestedVersion in db.versions && db.versions[approval.requestedVersion].proposal == approval.proposal
    && var proposal := db.proposals[approval.proposal];
    && match inserted
       case None =>
         && decided == approval.requestedVersion
         && verdict.kind != ApproveChanged
         && (verdict.kind == Approve ==> Affordable(db, proposal, db.versions[decided]))
       case Some(row) =>
         && decided !in db.versions
         && verdict.kind == ApproveChanged
         && row.proposal == approval.proposal
         && row.number == MaxNumber(VersionNumbers(db.versions, approval.proposal)) + 1
         && row.amount > 0
         && row.currency == db.versions[approval.requestedVersion].currency
         && Affordable(db, proposal, row)
  }

  ghost predicate Affordable(db: Db, proposal: Proposal, version: Version) {
    && ParametersFit(proposal.action, version.parameters)
    && CheckAmount(db, proposal.action, proposal.order, version.amount, version.reason, version.parameters).Ok?
  }

  /** A decision that is recorded is recorded by DecidedDb; one that is replayed changes nothing. */
  lemma DecisionDecides(db: Db, id: Id, verdict: Verdict, decisionId: Id, versionId: Id) returns (inserted: Option<Version>)
    requires DecideApproval(db, id, verdict, decisionId, versionId).Ok?
    ensures var (db', reply) := DecideApproval(db, id, verdict, decisionId, versionId).value;
            if id in db.decisions then db' == db && reply == DecisionReply(false, db.decisions[id])
            else
              && Decides(db, id, verdict, reply.decision.decidedVersion, inserted)
              && db' == DecidedDb(db, id, verdict, decisionId, reply.decision.decidedVersion, inserted)
              && reply == DecisionReply(true, db'.decisions[id])
  {
    if id in db.decisions {
      inserted := None;
    } else {
      inserted := ResolveVersion(db, db.approvals[id], verdict).value;
    }
  }

  lemma DecidedReferences(db: Db, id: Id, verdict: Verdict, decisionId: Id, decided: Id, inserted: Option<Version>)
    requires References(db) && Decides(db, id, verdict, decided, inserted)
    ensures References(DecidedDb(db, id, verdict, decisionId, decided, inserted))
  {
    var db' := DecidedDb(db, id, verdict, decisionId, decided, inserted);
    DecidedLinks(db, id, verdict, decisionId, decided, inserted);
    DecidedProposalsLinked(db, id, verdict, decisionId, decided, inserted);
    forall v | v in db'.versions
      ensures VersionFits(db', v)
    {
      DecidedVersionFits(db, id, verdict, decisionId, decided, inserted, v);
    }
  }

  lemma DecidedLinks(db: Db, id: Id, verdict: Verdict, decisionId: Id, decided: Id, inserted: Option<Version>)
    requires RunsLinked(db) && ApprovalsLinked(db) && Decides(db, id, verdict, decided, inserted)
    ensures var db' := DecidedDb(db, id, verdict, decisionId, decided, inserted); RunsLinked(db') && ApprovalsLinked(db')
  {
  }

  lemma DecidedProposalsLinked(db: Db, id: Id, verdict: Verdict, decisionId: Id, decided: Id, inserted: Option<Version>)
    requires ProposalsLinked(db) && Decides(db, id, verdict, decided, inserted)
    ensures ProposalsLinked(DecidedDb(db, id, verdict, decisionId, decided, inserted))
  {
  }

  lemma DecidedVersionFits(db: Db, id: Id, verdict: Verdict, decisionId: Id, decided: Id, inserted: Option<Version>, v: Id)
    requires Decides(db, id, verdict, decided, inserted)
    requires VersionFits(db, db.approvals[id].requestedVersion)
    requires if v in db.versions then VersionFits(db, v) else inserted.Some? && v == decided
    ensures var db' := DecidedDb(db, id, verdict, decisionId, decided, inserted); v in db'.versions && VersionFits(db', v)
  {
  }

  lemma DecidedOneApproval(db: Db, id: Id, verdict: Verdict, decisionId: Id, decided: Id, inserted: Option<Version>)
    requires OneApproval(db) && Decides(db, id, verdict, decided, inserted)
    ensures OneApproval(DecidedDb(db, id, verdict, decisionId, decided, inserted))
  {
    var db' := DecidedDb(db, id, verdict, decisionId, decided, inserted);
    forall p | p in db'.proposals
      ensures ApprovalByProposal(db', p).Some?
    {
      assert ApprovalByProposal(db, p).Some?;
      var a := ApprovalByProposal(db, p).value;
      assert a in db'.approvals && db'.approvals[a].proposal == p;
    }
  }

  lemma DecidedDecisions(db: Db, id: Id, verdict: Verdict, decisionId: Id, decided: Id, inserted: Option<Version>)
    requires OneApproval(db) && DecisionsAgree(db) && Decides(db, id, verdict, decided, inserted)
    ensures DecisionsAgree(DecidedDb(db, id, verdict, decisionId, decided, inserted))
  {
    var db' := DecidedDb(db, id, verdict, decisionId, decided, inserted);
    forall a | a in db'.approvals
      ensures ApprovalAgrees(db', a)
    {
      assert ApprovalAgrees(db, a);
    }
  }

  /** A version with the number after the largest one keeps the numbering gapless. */
  lemma NextVersionKeepsNumbers(versions: map<Id, Version>, v: Id, row: Version)
    requires Numbered(versions) && v !in versions
    requires row.number == MaxNumber(VersionNumbers(versions, row.proposal)) + 1
    ensures Numbered(versions[v := row])
  {
    hide VersionNumbers, MaxNumber;
    var versions' := versions[v := row];
    forall w | w in versions' && versions'[w].number > 1
      ensures versions'[w].number - 1 in VersionNumbers(versions', versions'[w].proposal)
    {
      NumbersGrow(versions, v, row, versions'[w].proposal);
    }
    NextNumberIsNew(versions, row);
  }

  lemma NumbersGrow(versions: map<Id, Version>, v: Id, row: Version, proposal: Id)
    requires v !in versions
    ensures VersionNumbers(versions, proposal) <= VersionNumbers(versions[v := row], proposal)
  {
    forall n | n in VersionNumbers(versions, proposal)
      ensures n in VersionNumbers(versions[v := row], proposal)
    {
      var u :| u in versions && versions[u].proposal == proposal && versions[u].number == n;
      assert u in versions[v := row] && versions[v := row][u] == versions[u];
    }
  }

  lemma NextNumberIsNew(versions: map<Id, Version>, row: Version)
    requires row.number == MaxNumber(VersionNumbers(versions, row.proposal)) + 1
    ensures forall w :: w in versions ==> !SameNumber(versions[w], row)
  {
    forall w | w in versions && versions[w].proposal == row.proposal
      ensures versions[w].number < row.number
    {
      assert versions[w].number in VersionNumbers(versions, row.proposal);
    }
  }

  lemma DecidedNumbered(db: Db, id: Id, verdict: Verdict, decisionId: Id, decided: Id, inserted: Option<Version>)
    requires Numbered(db.versions) && Decides(db, id, verdict, decided, inserted)
    ensures Numbered(DecidedDb(db, id, verdict, decisionId, decided, inserted).versions)
  {
    if inserted.Some? {
      NextVersionKeepsNumbers(db.versions, decided, inserted.value);
    }
  }

  lemma DecidedExecutions(db: Db, id: Id, verdict: Verdict, decisionId: Id, decided: Id, inserted: Option<Version>)
    requires ExecutionsAgree(db) && ApprovalAgrees'(db, id) && Decides(db, id, verdict, decided, inserted)
    ensures ExecutionsAgree(DecidedDb(db, id, verdict, decisionId, decided, inserted))
  {
    var db' := DecidedDb(db, id, verdict, decisionId, decided, inserted);
    forall e | e in db'.executions
      ensures ExecutionFits(db', e)
    {
      assert ExecutionFits(db, e);
    }
  }

  ghost predicate ApprovalAgrees'(db: Db, id: Id) {
    id in db.approvals && ApprovalAgrees(db, id)
  }

  lemma DecidedRuns(db: Db, id: Id, verdict: Verdict, decisionId: Id, decided: Id, inserted: Option<Version>)
    requires RunsAgree(db) && Decides(db, id, verdict, decided, inserted)
    ensures RunsAgree(DecidedDb(db, id, verdict, decisionId, decided, inserted))
  {
  }

  lemma DecidedSuccesses(db: Db, id: Id, verdict: Verdict, decisionId: Id, decided: Id, inserted: Option<Version>)
    requires SuccessesExecuted(db) && Decides(db, id, verdict, decided, inserted)
    ensures SuccessesExecuted(DecidedDb(db, id, verdict, decisionId, decided, inserted))
  {
  }

  lemma DecidedRecords(db: Db, id: Id, verdict: Verdict, decisionId: Id, decided: Id, inserted: Option<Version>)
    requires RecordsAgree(db) && Decides(db, id, verdict, decided, inserted)
    ensures RecordsAgree(DecidedDb(db, id, verdict, decisionId, decided, inserted))
  {
    var db' := DecidedDb(db, id, verdict, decisionId, decided, inserted);
    forall i | 0 <= i < |db'.refunds|
      ensures RecordFits(db', Refund, db'.refunds[i])
    {
      assert RecordFits(db, Refund, db.refunds[i]);
    }
    forall i | 0 <= i < |db'.compensations|
      ensures RecordFits(db', Compensation, db'.compensations[i])
    {
      assert RecordFits(db, Compensation, db.compensations[i]);
    }
    forall e | e in db'.executions && db'.executions[e].status == Done
      ensures RecordedOnce(db', e)
    {
      assert RecordedOnce(db, e);
      assert RecordsOf(db', db'.executions[e].action) == RecordsOf(db, db.executions[e].action);
    }
  }

  lemma DecidedMoney(db: Db, id: Id, verdict: Verdict, decisionId: Id, decided: Id, inserted: Option<Version>)
    requires MoneyBounded(db) && RefundedWhenPaidBack(db) && Decides(db, id, verdict, decided, inserted)
    ensures var db' := DecidedDb(db, id, verdict, decisionId, decided, inserted); MoneyBounded(db') && RefundedWhenPaidBack(db')
  {
  }

  lemma DecidedActive(db: Db, id: Id, verdict: Verdict, decisionId: Id, decided: Id, inserted: Option<Version>)
    requires OneActive(db.proposals) && ApprovalAgrees'(db, id) && Decides(db, id, verdict, decided, inserted)
    ensures OneActive(DecidedDb(db, id, verdict, decisionId, decided, inserted).proposals)
  {
    var proposals := DecidedDb(db, id, verdict, decisionId, decided, inserted).proposals;
    forall p, q | p in proposals && q in proposals && CompeteForOrder(proposals[p], proposals[q])
      ensures p == q
    {
      assert CompeteForOrder(db.proposals[p], db.proposals[q]);
    }
  }

  lemma DecidedFull(db: Db, id: Id, verdict: Verdict, decisionId: Id, decided: Id, inserted: Option<Version>)
    requires FullCoversRemaining(db) && DecidedVersionsKept(db) && Decides(db, id, verdict, decided, inserted)
    ensures FullCoversRemaining(DecidedDb(db, id, verdict, decisionId, decided, inserted))
  {
    var db' := DecidedDb(db, id, verdict, decisionId, decided, inserted);
    forall a | a in db'.decisions && IsApproving(db'.decisions[a].kind)
      ensures DecidedFullCovers(db', db'.decisions[a].decidedVersion)
    {
      if a != id {
        assert DecidedFullCovers(db, db.decisions[a].decidedVersion);
      }
    }
  }

  ghost predicate DecidedVersionsKept(db: Db) {
    forall a :: a in db.decisions ==> db.decisions[a].decidedVersion in db.versions
  }

  lemma DecisionsKeepVersions(db: Db)
    requires ProposalsLinked(db) && DecisionsAgree(db)
    ensures DecidedVersionsKept(db)
  {
    forall a | a in db.decisions
      ensures db.decisions[a].decidedVersion in db.versions
    {
      assert ApprovalAgrees(db, a);
    }
  }

  lemma DecisionKeeps(db: Db, id: Id, verdict: Verdict, decisionId: Id, decided: Id, inserted: Option<Version>)
    requires Consistent(db) && Decides(db, id, verdict, decided, inserted)
    ensures Consistent(DecidedDb(db, id, verdict, decisionId, decided, inserted))
  {
    DecisionsKeepVersions(db);
    assert ApprovalAgrees'(db, id);
    DecidedReferences(db, id, verdict, decisionId, decided, inserted);
    DecidedOneApproval(db, id, verdict, decisionId, decided, inserted);
    DecidedDecisions(db, id, verdict, decisionId, decided, inserted);
    DecidedNumbered(db, id, verdict, decisionId, decided, inserted);
    DecidedExecutions(db, id, verdict, decisionId, decided, inserted);
    DecidedRuns(db, id, verdict, decisionId, decided, inserted);
    DecidedSuccesses(db, id, verdict, decisionId, decided, inserted);
    DecidedRecords(db, id, verdict, decisionId, decided, inserted);
    DecidedMoney(db, id, verdict, decisionId, decided, inserted);
    DecidedActive(db, id, verdict, decisionId, decided, inserted);
    DecidedFull(db, id, verdict, decisionId, decided, inserted);
  }
}
