/** Recording a success keeps the tables consistent. */
module SettlementPreservation {
  import opened Outcomes
  import opened ActionModel
  import opened ActionTransactions
  import opened ActionInvariants

  /** Every check of record_execution_success passed for an execution that is running. */
  ghost predicate Settles(db: Db, id: Id, s: Settlement, refunded: bool) {
    && id in db.executions && db.executions[id].status == InProgress
    && ChainMatches(db.executions[id], s.proposal, s.version, s.action)
    && s.proposal in db.proposals && s.version in db.versions && s.order in db.orders
    && var proposal, version := db.proposals[s.proposal], db.versions[s.version];
    && version.proposal == s.proposal
    && proposal.order == s.order && proposal.action == s.action && proposal.status in {Approved, Executing}
    && version.amount == s.amount && version.currency == s.currency && version.reason == s.reason
    && CheckSettlement(db, s) == Ok(refunded)
    && !HasRecordFor(RecordsOf(db, s.action), s.record, id, s.version)
    && s.amount > 0
    && proposal.run in db.runs && db.runs[proposal.run].status == Running
  }

  /** A success that is recorded is recorded by SettledDb; one that is replayed changes nothing. */
  lemma SuccessSettles(db: Db, id: Id, s: Settlement)
    requires RecordSuccess(db, id, s).Ok?
    ensures id in db.executions
    ensures var (db', success) := RecordSuccess(db, id, s).value;
            if db.executions[id].status == Done then db' == db
            else
              && Settles(db, id, s, success.orderRefunded)
              && db' == SettledDb(db, id, s, success.orderRefunded)
              && success == Success(id, s.record, success.orderRefunded)
  {
  }

  function SettlementRecord(id: Id, s: Settlement): Record {
    Record(s.record, s.order, s.proposal, s.version, id, s.amount, s.currency, s.reason)
  }

  lemma SettledReferences(db: Db, id: Id, s: Settlement, refunded: bool)
    requires References(db) && Settles(db, id, s, refunded)
    ensures References(SettledDb(db, id, s, refunded))
  {
    var db' := SettledDb(db, id, s, refunded);
    SettledLinks(db, id, s, refunded);
    SettledRunsLinked(db, id, s, refunded);
    forall v | v in db'.versions
      ensures VersionFits(db', v)
    {
      SettledVersionFits(db, id, s, refunded, v);
    }
  }

  lemma SettledLinks(db: Db, id: Id, s: Settlement, refunded: bool)
    requires ProposalsLinked(db) && ApprovalsLinked(db) && Settles(db, id, s, refunded)
    ensures var db' := SettledDb(db, id, s, refunded); ProposalsLinked(db') && ApprovalsLinked(db')
  {
    hide ProposalsLinked;
    SettledProposalsLinked(db, id, s, refunded);
  }

  lemma SettledProposalsLinked(db: Db, id: Id, s: Settlement, refunded: bool)
    requires ProposalsLinked(db) && Settles(db, id, s, refunded)
    ensures ProposalsLinked(SettledDb(db, id, s, refunded))
  {
  }

  lemma SettledRunsLinked(db: Db, id: Id, s: Settlement, refunded: bool)
    requires RunsLinked(db) && Settles(db, id, s, refunded)
    ensures RunsLinked(SettledDb(db, id, s, refunded))
  {
  }

  lemma SettledVersionFits(db: Db, id: Id, s: Settlement, refunded: bool, v: Id)
    requires v in db.versions && VersionFits(db, v) && Settles(db, id, s, refunded)
    ensures VersionFits(SettledDb(db, id, s, refunded), v)
  {
  }

  lemma SettledOneApproval(db: Db, id: Id, s: Settlement, refunded: bool)
    requires OneApproval(db) && Settles(db, id, s, refunded)
    ensures OneApproval(SettledDb(db, id, s, refunded))
  {
    var db' := SettledDb(db, id, s, refunded);
    forall p | p in db'.proposals
      ensures ApprovalByProposal(db', p).Some?
    {
      assert ApprovalByProposal(db, p).Some?;
      var a := ApprovalByProposal(db, p).value;
      assert a in db'.approvals && db'.approvals[a].proposal == p;
    }
  }

  lemma SettledDecisions(db: Db, id: Id, s: Settlement, refunded: bool)
    requires DecisionsAgree(db) && Settles(db, id, s, refunded)
    ensures DecisionsAgree(SettledDb(db, id, s, refunded))
  {
    var db' := SettledDb(db, id, s, refunded);
    forall a | a in db'.approvals
      ensures ApprovalAgrees(db', a)
    {
      assert ApprovalAgrees(db, a);
    }
  }

  lemma SettledNumbered(db: Db, id: Id, s: Settlement, refunded: bool)
    requires Numbered(db.versions) && Settles(db, id, s, refunded)
    ensures Numbered(SettledDb(db, id, s, refunded).versions)
  {
    assert SettledDb(db, id, s, refunded).versions == db.versions;
  }

  lemma SettledExecutions(db: Db, id: Id, s: Settlement, refunded: bool)
    requires ExecutionsAgree(db) && Settles(db, id, s, refunded)
    ensures ExecutionsAgree(SettledDb(db, id, s, refunded))
  {
    hide OneDone;
    var db' := SettledDb(db, id, s, refunded);
    forall e | e in db'.executions
      ensures ExecutionFits(db', e)
    {
      SettledExecutionFits(db, id, s, refunded, e);
    }
    SettledOneDone(db, id, s, refunded);
  }

  lemma SettledExecutionFits(db: Db, id: Id, s: Settlement, refunded: bool, e: Id)
    requires ExecutionsAgree(db) && Settles(db, id, s, refunded) && e in db.executions
    ensures ExecutionFits(SettledDb(db, id, s, refunded), e)
  {
    assert ExecutionFits(db, e);
  }

  lemma SettledOneDone(db: Db, id: Id, s: Settlement, refunded: bool)
    requires ExecutionsAgree(db) && Settles(db, id, s, refunded)
    ensures OneDone(SettledDb(db, id, s, refunded).executions)
  {
    var executions := SettledDb(db, id, s, refunded).executions;
    forall e, f | e in executions && f in executions && BothDone(executions[e], executions[f])
      ensures e == f
    {
      assert ExecutionFits(db, e) && ExecutionFits(db, f);
      assert e != id && f != id ==> BothDone(db.executions[e], db.executions[f]);
    }
  }

  lemma SettledRuns(db: Db, id: Id, s: Settlement, refunded: bool)
    requires References(db) && RunsAgree(db) && Settles(db, id, s, refunded)
    ensures RunsAgree(SettledDb(db, id, s, refunded))
  {
  }

  lemma SettledSuccesses(db: Db, id: Id, s: Settlement, refunded: bool)
    requires SuccessesExecuted(db) && Settles(db, id, s, refunded)
    ensures SuccessesExecuted(SettledDb(db, id, s, refunded))
  {
    var db' := SettledDb(db, id, s, refunded);
    forall p | p in db'.proposals && db'.proposals[p].status == ProposalSucceeded
      ensures IsExecuted(db'.executions, p)
    {
      if p == s.proposal {
        assert db'.executions[id].status == Done && db'.executions[id].proposal == p;
      } else {
        var e :| e in db.executions && db.executions[e].status == Done && db.executions[e].proposal == p;
        assert db'.executions[e] == db.executions[e];
      }
    }
  }

  lemma SettledRecordFits(db: Db, id: Id, s: Settlement, refunded: bool, action: ActionType, record: Record)
    requires RecordFits(db, action, record) && Settles(db, id, s, refunded)
    ensures RecordFits(SettledDb(db, id, s, refunded), action, record)
  {
  }

  lemma SettledUnrepeated(records: seq<Record>, record: Record)
    requires Unrepeated(records) && !HasRecordFor(records, record.id, record.execution, record.version)
    ensures Unrepeated(records + [record])
  {
  }

  lemma SettledRecords(db: Db, id: Id, s: Settlement, refunded: bool)
    requires RecordsAgree(db) && Settles(db, id, s, refunded)
    ensures RecordsAgree(SettledDb(db, id, s, refunded))
  {
    var db' := SettledDb(db, id, s, refunded);
    var record := SettlementRecord(id, s);
    SettledUnrepeated(RecordsOf(db, s.action), record);
    SettledEachRecord(db, id, s, refunded);
    forall e | e in db'.executions && db'.executions[e].status == Done
      ensures RecordedOnce(db', e)
    {
      var before, after := RecordsOf(db, db'.executions[e].action), RecordsOf(db', db'.executions[e].action);
      if e == id {
        assert after[|after| - 1].execution == e;
      } else {
        assert RecordedOnce(db, e);
        var i :| 0 <= i < |before| && before[i].execution == e;
        assert after[i].execution == e;
      }
    }
  }

  lemma SettledEachRecord(db: Db, id: Id, s: Settlement, refunded: bool)
    requires RecordsAgree(db) && Settles(db, id, s, refunded)
    ensures var db' := SettledDb(db, id, s, refunded);
            && (forall i :: 0 <= i < |db'.refunds| ==> RecordFits(db', Refund, db'.refunds[i]))
            && (forall i :: 0 <= i < |db'.compensations| ==> RecordFits(db', Compensation, db'.compensations[i]))
  {
    var db' := SettledDb(db, id, s, refunded);
    assert RecordFits(db', s.action, SettlementRecord(id, s));
    forall i | 0 <= i < |db'.refunds|
      ensures RecordFits(db', Refund, db'.refunds[i])
    {
      if i < |db.refunds| {
        SettledRecordFits(db, id, s, refunded, Refund, db.refunds[i]);
      }
    }
    forall i | 0 <= i < |db'.compensations|
      ensures RecordFits(db', Compensation, db'.compensations[i])
    {
      if i < |db.compensations| {
        SettledRecordFits(db, id, s, refunded, Compensation, db.compensations[i]);
      }
    }
  }

  /** One more record adds its amount to its own order and to no other. */
  lemma {:induction false} SumWithRecord(records: seq<Record>, record: Record, order: Id)
    ensures SumFor(records + [record], order) == SumFor(records, order) + if record.order == order then record.amount else 0
  {
    assert (records + [record])[..|records|] == records;
  }

  lemma SettledMoney(db: Db, id: Id, s: Settlement, refunded: bool)
    requires MoneyBounded(db) && Settles(db, id, s, refunded)
    ensures MoneyBounded(SettledDb(db, id, s, refunded))
  {
    var db' := SettledDb(db, id, s, refunded);
    forall o | o in db'.orders
      ensures SumFor(db'.refunds, o) <= db'.orders[o].total && SumFor(db'.compensations, o) <= db'.orders[o].total / 2
    {
      SettledSums(db, id, s, refunded, o);
    }
    SettledReasons(db, id, s, refunded);
  }

  lemma {:induction false} SettledSums(db: Db, id: Id, s: Settlement, refunded: bool, o: Id)
    requires Settles(db, id, s, refunded) && o in db.orders
    requires SumFor(db.refunds, o) <= db.orders[o].total && SumFor(db.compensations, o) <= db.orders[o].total / 2
    ensures var db' := SettledDb(db, id, s, refunded);
            SumFor(db'.refunds, o) <= db'.orders[o].total && SumFor(db'.compensations, o) <= db'.orders[o].total / 2
  {
    var records, record := RecordsOf(db, s.action), SettlementRecord(id, s);
    SumWithRecord(records, record, o);
    assert SettledDb(db, id, s, refunded).orders[o].total == db.orders[o].total;
    SettlementWithinBounds(db, s, refunded, o);
  }

  lemma {:induction false} SettlementWithinBounds(db: Db, s: Settlement, refunded: bool, o: Id)
    requires s.order in db.orders && o in db.orders && CheckSettlement(db, s) == Ok(refunded)
    requires SumFor(db.refunds, o) <= db.orders[o].total && SumFor(db.compensations, o) <= db.orders[o].total / 2
    ensures SumFor(RecordsOf(db, s.action), o) + (if s.order == o then s.amount else 0)
            <= if s.action.Refund? then db.orders[o].total else db.orders[o].total / 2
  {
  }

  lemma SettledReasons(db: Db, id: Id, s: Settlement, refunded: bool)
    requires ReasonsUnrepeated(db.compensations) && Settles(db, id, s, refunded)
    ensures ReasonsUnrepeated(SettledDb(db, id, s, refunded).compensations)
  {
  }

  lemma SettledActive(db: Db, id: Id, s: Settlement, refunded: bool)
    requires OneActive(db.proposals) && Settles(db, id, s, refunded)
    ensures OneActive(SettledDb(db, id, s, refunded).proposals)
  {
    var proposals := SettledDb(db, id, s, refunded).proposals;
    forall p, q | p in proposals && q in proposals && CompeteForOrder(proposals[p], proposals[q])
      ensures p == q
    {
      assert CompeteForOrder(db.proposals[p], db.proposals[q]);
    }
  }

  lemma SettledFull(db: Db, id: Id, s: Settlement, refunded: bool)
    requires FullCoversRemaining(db) && Settles(db, id, s, refunded)
    ensures FullCoversRemaining(SettledDb(db, id, s, refunded))
  {
    var db' := SettledDb(db, id, s, refunded);
    forall a | a in db'.decisions && IsApproving(db'.decisions[a].kind)
      ensures DecidedFullCovers(db', db'.decisions[a].decidedVersion)
    {
      var v := db.decisions[a].decidedVersion;
      assert DecidedFullCovers(db, v);
      if v in db.versions && IsFullRefund(db.versions[v]) {
        SumWithRecord(db.refunds, SettlementRecord(id, s), db.proposals[db.versions[v].proposal].order);
      }
    }
  }

  lemma SettledRefunded(db: Db, id: Id, s: Settlement, refunded: bool)
    requires RefundedWhenPaidBack(db) && Settles(db, id, s, refunded)
    ensures RefundedWhenPaidBack(SettledDb(db, id, s, refunded))
  {
    var db' := SettledDb(db, id, s, refunded);
    forall i | 0 <= i < |db'.refunds|
      ensures db'.refunds[i].order in db'.orders
      ensures Remaining(db', db'.refunds[i].order) == 0 ==> db'.orders[db'.refunds[i].order].status == OrderStatus.Refunded
    {
      SumWithRecord(db.refunds, SettlementRecord(id, s), db'.refunds[i].order);
      assert i < |db.refunds| ==> db'.refunds[i] == db.refunds[i];
    }
  }

  lemma SettlementKeeps(db: Db, id: Id, s: Settlement, refunded: bool)
    requires Consistent(db) && Settles(db, id, s, refunded)
    ensures Consistent(SettledDb(db, id, s, refunded))
  {
    SettledReferences(db, id, s, refunded);
    SettledOneApproval(db, id, s, refunded);
    SettledDecisions(db, id, s, refunded);
    SettledNumbered(db, id, s, refunded);
    SettledExecutions(db, id, s, refunded);
    SettledRuns(db, id, s, refunded);
    SettledSuccesses(db, id, s, refunded);
    SettledRecords(db, id, s, refunded);
    SettledMoney(db, id, s, refunded);
    SettledActive(db, id, s, refunded);
    SettledFull(db, id, s, refunded);
    SettledRefunded(db, id, s, refunded);
  }
}
