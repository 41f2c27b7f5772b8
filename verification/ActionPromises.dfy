/** The promises of the workflow in plain terms: for every state that any sequence of
    transactions by anyone reaches, and for every state any further transactions lead to. */
module ActionPromises {
  import opened Numbering
  import opened ActionModel
  import opened ActionTransactions
  import opened ActionInvariants
  import opened SettlementPreservation
  import opened ActionRuns
  import opened ActionHistory
  import opened ActionTheorems

  /** Each state is what the transaction between them makes of the one before. */
  ghost predicate Transactions(states: seq<Db>, steps: seq<Step>) {
    && |states| == |steps| + 1
    && forall i {:trigger steps[i]} :: 0 <= i < |steps| ==> states[i + 1] == Apply(states[i], steps[i])
  }

  ghost predicate Leads(db: Db, db': Db) {
    exists states, steps :: Transactions(states, steps) && states[0] == db && states[|steps|] == db'
  }

  ghost predicate Reachable(db: Db) {
    exists initial :: Initial(initial) && Leads(initial, db)
  }

  // ---- Reachable states are those of the runs --------------------------------------------------

  lemma {:induction false} TransactionsRun(states: seq<Db>, steps: seq<Step>)
    requires Transactions(states, steps)
    ensures states[|steps|] == Exec(states[0], steps)
    decreases |steps|
  {
    hide Apply;
    if steps != [] {
      var n := |steps| - 1;
      assert forall i {:trigger steps[..n][i]} :: 0 <= i < n ==> steps[..n][i] == steps[i];
      TransactionsRun(states[..|steps|], steps[..n]);
      assert states[n + 1] == Apply(states[n], steps[n]);
    }
  }

  lemma {:induction false} RunIsTransactions(db: Db, steps: seq<Step>) returns (states: seq<Db>)
    ensures Transactions(states, steps) && states[0] == db && states[|steps|] == Exec(db, steps)
    decreases |steps|
  {
    hide Apply;
    if steps == [] {
      states := [db];
    } else {
      var n := |steps| - 1;
      var before := RunIsTransactions(db, steps[..n]);
      states := before + [Apply(before[n], steps[n])];
      forall i {:trigger steps[i]} | 0 <= i < |steps|
        ensures states[i + 1] == Apply(states[i], steps[i])
      {
        assert i < n ==> steps[..n][i] == steps[i];
      }
    }
  }

  /** One state leads to another exactly if a run of transactions does. */
  lemma {:induction false} LeadsIff(db: Db, db': Db)
    ensures Leads(db, db') <==> exists steps :: db' == Exec(db, steps)
  {
    hide Transactions, Exec;
    if Leads(db, db') {
      var steps := RunOf(db, db');
    }
    forall steps | db' == Exec(db, steps)
      ensures Leads(db, db')
    {
      var states := RunIsTransactions(db, steps);
    }
  }

  lemma RunOf(db: Db, db': Db) returns (steps: seq<Step>)
    requires Leads(db, db')
    ensures db' == Exec(db, steps)
  {
    hide Exec, Apply;
    var states, run :| Transactions(states, run) && states[0] == db && states[|run|] == db';
    TransactionsRun(states, run);
    steps := run;
  }

  lemma ReachableConsistent(db: Db)
    requires Reachable(db)
    ensures Consistent(db)
  {
    hide Consistent, Leads, Initial, Exec;
    var initial :| Initial(initial) && Leads(initial, db);
    var steps := RunOf(initial, db);
    ReachableIsConsistent(initial, steps);
  }

  lemma Parts(db: Db)
    requires Consistent(db)
    ensures References(db) && OneApproval(db) && DecisionsAgree(db) && Numbered(db.versions) && ExecutionsAgree(db)
    ensures RunsAgree(db) && SuccessesExecuted(db) && RecordsAgree(db) && MoneyBounded(db) && OneActive(db.proposals) && FullCoversRemaining(db)
  {
  }

  lemma LeadsToHistory(db: Db, db': Db)
    requires Reachable(db) && Leads(db, db')
    ensures History(db, db') && Consistent(db')
  {
    hide Reachable, Leads, Consistent, History, Exec;
    ReachableConsistent(db);
    var steps := RunOf(db, db');
    RunsKeepHistory(db, steps);
    RunsKeepConsistency(db, steps);
  }

  // ---- The four machines agree --------------------------------------------------------------------

  /** An approval is pending exactly while there is no decision and exactly while its proposal
      awaits approval; a proposal is rejected exactly by a rejecting decision. */
  lemma DecisionsAndProposalsAgree(db: Db, a: Id)
    requires Reachable(db) && a in db.approvals
    ensures db.approvals[a].proposal in db.proposals
    ensures var proposal := db.proposals[db.approvals[a].proposal];
            && (a !in db.decisions <==> db.approvals[a].status == Pending)
            && (a !in db.decisions <==> proposal.status == AwaitingApproval)
            && (a in db.decisions && db.decisions[a].kind == Reject <==> proposal.status == Rejected)
  {
    hide Reachable, Consistent, References, OneApproval, Numbered, ExecutionsAgree, RunsAgree, RecordsAgree, MoneyBounded, OneActive,
         FullCoversRemaining;
    ReachableConsistent(db);
    Parts(db);
    assert ApprovalAgrees(db, a);
  }

  /** Every proposal has one approval, and no other has that proposal. */
  lemma OneApprovalEach(db: Db, p: Id) returns (a: Id)
    requires Reachable(db) && p in db.proposals
    ensures a in db.approvals && db.approvals[a].proposal == p
    ensures forall b :: b in db.approvals && db.approvals[b].proposal == p ==> b == a
  {
    hide Reachable, Consistent, References, DecisionsAgree, Numbered, ExecutionsAgree, RunsAgree, RecordsAgree, MoneyBounded, OneActive,
         FullCoversRemaining;
    ReachableConsistent(db);
    Parts(db);
    a := ApprovalByProposal(db, p).value;
  }

  function Pointing(records: seq<Record>, e: Id): nat {
    if records == [] then 0 else Pointing(records[..|records| - 1], e) + if records[|records| - 1].execution == e then 1 else 0
  }

  lemma {:induction false} PointingOnce(records: seq<Record>, e: Id)
    requires forall i, j :: 0 <= i < j < |records| ==> records[i].execution != records[j].execution
    ensures Pointing(records, e) == if exists i :: 0 <= i < |records| && records[i].execution == e then 1 else 0
  {
    if records != [] {
      var n := |records| - 1;
      PointingOnce(records[..n], e);
      assert forall i :: 0 <= i < n ==> records[..n][i] == records[i];
      if i :| 0 <= i < |records| && records[i].execution == e {
        assert i < n ==> records[..n][i].execution == e;
      }
    }
  }

  /** An execution has succeeded exactly if exactly one business record, of either table, points
      at it, and no execution ever has more. */
  lemma {:induction false} SucceededIffRecordedOnce(db: Db, e: Id)
    requires Reachable(db) && e in db.executions
    ensures db.executions[e].status == Done <==> Pointing(db.refunds, e) + Pointing(db.compensations, e) == 1
    ensures Pointing(db.refunds, e) + Pointing(db.compensations, e) <= 1
  {
    hide Reachable, Consistent, References, OneApproval, DecisionsAgree, Numbered, ExecutionsAgree, RunsAgree, MoneyBounded, OneActive,
         FullCoversRemaining;
    ReachableConsistent(db);
    Parts(db);
    PointingOnce(db.refunds, e);
    PointingOnce(db.compensations, e);
    RecordTables(db, e);
  }

  lemma RecordTables(db: Db, e: Id)
    requires RecordsAgree(db) && e in db.executions
    ensures var refunded, compensated := IsRecorded(db.refunds, e), IsRecorded(db.compensations, e);
            && !(refunded && compensated)
            && (db.executions[e].status == Done <==> refunded || compensated)
  {
    if i :| 0 <= i < |db.refunds| && db.refunds[i].execution == e {
      assert RecordFits(db, Refund, db.refunds[i]);
    }
    if i :| 0 <= i < |db.compensations| && db.compensations[i].execution == e {
      assert RecordFits(db, Compensation, db.compensations[i]);
    }
    if db.executions[e].status == Done {
      assert RecordedOnce(db, e);
    }
  }

  predicate IsRecorded(records: seq<Record>, e: Id) {
    exists i :: 0 <= i < |records| && records[i].execution == e
  }

  lemma SucceededProposalHasSucceededRun(db: Db, p: Id)
    requires Reachable(db) && p in db.proposals && db.proposals[p].status == ProposalSucceeded
    ensures db.proposals[p].run in db.runs && db.runs[db.proposals[p].run].status == Succeeded
  {
    hide Reachable, Consistent;
    ReachableConsistent(db);
    Parts(db);
  }

  /** A run has a completion stamp exactly if it succeeded, was cancelled, or failed for good. */
  lemma CompletedIff(db: Db, r: Id)
    requires Reachable(db) && r in db.runs
    ensures db.runs[r].completed <==>
              db.runs[r].status in {Succeeded, Cancelled} || (db.runs[r].status == Failed && !db.runs[r].errorRetryable)
  {
    hide Reachable, Consistent, References, OneApproval, DecisionsAgree, Numbered, ExecutionsAgree, RecordsAgree, MoneyBounded, OneActive,
         FullCoversRemaining;
    ReachableConsistent(db);
    Parts(db);
  }

  /** Two active proposals of one order and type are one. */
  lemma OneActiveProposal(db: Db, p: Id, q: Id)
    requires Reachable(db) && p in db.proposals && q in db.proposals
    requires IsActive(db.proposals[p].status) && IsActive(db.proposals[q].status)
    requires db.proposals[p].order == db.proposals[q].order && db.proposals[p].action == db.proposals[q].action
    ensures p == q
  {
    hide Reachable, Consistent;
    ReachableConsistent(db);
    Parts(db);
    assert CompeteForOrder(db.proposals[p], db.proposals[q]);
  }

  // ---- What is final -----------------------------------------------------------------------------------

  /** Succeeded and cancelled runs never change status again. */
  lemma EndedRunsStay(db: Db, db': Db, r: Id)
    requires Reachable(db) && Leads(db, db') && r in db.runs && db.runs[r].status in {Succeeded, Cancelled}
    ensures r in db'.runs && db'.runs[r].status == db.runs[r].status
  {
    hide Reachable, Leads, Consistent;
    LeadsToHistory(db, db');
    assert RunKept(db.runs[r], db'.runs[r]);
  }

  /** Nor do succeeded and rejected proposals. */
  lemma EndedProposalsStay(db: Db, db': Db, p: Id)
    requires Reachable(db) && Leads(db, db') && p in db.proposals && db.proposals[p].status in {ProposalSucceeded, Rejected}
    ensures p in db'.proposals && db'.proposals[p].status == db.proposals[p].status
  {
    hide Reachable, Leads, Consistent;
    LeadsToHistory(db, db');
    assert ProposalKept(db.proposals[p], db'.proposals[p]);
  }

  /** The versions of a proposal are numbered 1 to n. */
  lemma VersionsAreNumbered(db: Db, p: Id, n: nat)
    requires Reachable(db)
    ensures n in VersionNumbers(db.versions, p) <==> 1 <= n <= MaxNumber(VersionNumbers(db.versions, p))
  {
    hide Reachable, Consistent, VersionNumbers, References, OneApproval, DecisionsAgree, ExecutionsAgree, RunsAgree, RecordsAgree,
         MoneyBounded, OneActive, FullCoversRemaining;
    ReachableConsistent(db);
    Parts(db);
    var max := MaxNumber(VersionNumbers(db.versions, p));
    if n in VersionNumbers(db.versions, p) {
      var v := VersionWith(db.versions, p, n);
    } else if 1 <= n <= max {
      NumbersBelow(db.versions, p, max, n);
    }
  }

  /** No two versions of a proposal have the same number. */
  lemma VersionNumbersDiffer(db: Db, v: Id, w: Id)
    requires Reachable(db) && v in db.versions && w in db.versions
    requires db.versions[v].proposal == db.versions[w].proposal && db.versions[v].number == db.versions[w].number
    ensures v == w
  {
    hide Reachable, Consistent, VersionNumbers, References, OneApproval, DecisionsAgree, ExecutionsAgree, RunsAgree, RecordsAgree,
         MoneyBounded, OneActive, FullCoversRemaining;
    ReachableConsistent(db);
    Parts(db);
    assert SameNumber(db.versions[v], db.versions[w]);
  }

  lemma VersionWith(versions: map<Id, Version>, p: Id, n: nat) returns (v: Id)
    requires n in VersionNumbers(versions, p)
    ensures v in versions && versions[v].proposal == p && versions[v].number == n
  {
    v :| v in versions && versions[v].proposal == p && versions[v].number == n;
  }

  lemma {:induction false} NumbersBelow(versions: map<Id, Version>, p: Id, m: nat, n: nat)
    requires Numbered(versions) && m in VersionNumbers(versions, p) && 1 <= n <= m
    ensures n in VersionNumbers(versions, p)
    decreases m
  {
    hide VersionNumbers;
    if n < m {
      var v := VersionWith(versions, p, m);
      assert versions[v].number - 1 in VersionNumbers(versions, versions[v].proposal);
      NumbersBelow(versions, p, m - 1, n);
    }
  }

  /** A version, once inserted, never changes. */
  lemma VersionsStay(db: Db, db': Db, v: Id)
    requires Reachable(db) && Leads(db, db') && v in db.versions
    ensures v in db'.versions && db'.versions[v] == db.versions[v]
  {
    hide Reachable, Leads, Consistent;
    LeadsToHistory(db, db');
  }

  /** A decision with the same content, by whoever is a member at any later time, returns the
      first one; any other is refused; none changes the tables. */
  lemma DecisionStands(db: Db, id: Id, first: Verdict, ids: (Id, Id), later: Db, again: Verdict, ids': (Id, Id))
    requires Reachable(db) && id !in db.decisions && DecideApproval(db, id, first, ids.0, ids.1).Ok?
    requires Leads(DecideApproval(db, id, first, ids.0, ids.1).value.0, later)
    ensures DecideApproval(later, id, again, ids'.0, ids'.1)
         == FinalAnswer(later, first, again, DecideApproval(db, id, first, ids.0, ids.1).value.1.decision)
  {
    hide Reachable, Leads, Consistent, DecideApproval, Exec, FinalAnswer;
    ReachableConsistent(db);
    var steps := RunOf(DecideApproval(db, id, first, ids.0, ids.1).value.0, later);
    DecisionIsFinal(db, id, first, ids, steps, again, ids'.0, ids'.1);
  }

  // ---- Money -----------------------------------------------------------------------------------------------

  /** In every reachable state an order has paid back at most its total, and granted at most half
      of it, rounded down, as compensation. */
  lemma {:induction false} MoneyIsBounded(db: Db, order: Id)
    requires Reachable(db) && order in db.orders
    ensures SumFor(db.refunds, order) <= db.orders[order].total
    ensures SumFor(db.compensations, order) <= db.orders[order].total / 2
  {
    hide Reachable, Consistent, SumFor;
    ReachableConsistent(db);
    Parts(db);
  }

  /** An order is compensated for each reason at most once. */
  lemma ReasonsAreGrantedOnce(db: Db, i: nat, j: nat)
    requires Reachable(db) && i < |db.compensations| && j < |db.compensations|
    requires db.compensations[i].order == db.compensations[j].order && db.compensations[i].reason == db.compensations[j].reason
    ensures i == j
  {
    hide Reachable, Consistent;
    ReachableConsistent(db);
    Parts(db);
  }

  /** A proposal has at most one record, in one of the tables. */
  lemma PaidOnce(db: Db, action: ActionType, i: nat, other: ActionType, j: nat)
    requires Reachable(db) && i < |RecordsOf(db, action)| && j < |RecordsOf(db, other)|
    requires RecordsOf(db, action)[i].proposal == RecordsOf(db, other)[j].proposal
    ensures action == other && i == j
  {
    hide Reachable, Consistent, ExecutionsAgree, RecordsAgree;
    ReachableConsistent(db);
    Parts(db);
    OneRecordPerProposal(db, action, i, other, j);
  }

  /** Recording a full refund under an approving decision of its version takes exactly what is
      left of the order, leaves nothing, and marks the order refunded. */
  lemma FullRefundEmptiesOrder(db: Db, id: Id, s: Settlement, approval: Id)
    requires Reachable(db) && RecordSuccess(db, id, s).Ok? && db.executions[id].status != Done
    requires approval in db.decisions && IsApproving(db.decisions[approval].kind) && db.decisions[approval].decidedVersion == s.version
    requires s.action.Refund? && s.version in db.versions && IsFullRefund(db.versions[s.version])
    ensures var db' := RecordSuccess(db, id, s).value.0;
            && s.order in db.orders && s.amount == Remaining(db, s.order)
            && s.order in db'.orders && Remaining(db', s.order) == 0
            && db'.orders[s.order].status == OrderStatus.Refunded
  {
    hide Reachable, Consistent, RecordSuccess, FullCoversRemaining, CheckSettlement, HasRecordFor, SumFor;
    ReachableConsistent(db);
    Parts(db);
    SuccessSettles(db, id, s);
    FullRefundTakesRemaining(db, id, s, RecordSuccess(db, id, s).value.1.orderRefunded, approval);
  }

  // ---- Approval before execution -----------------------------------------------------------------------------------

  /** Every business record has a stored approving decision. */
  lemma RecordsAreApproved(db: Db, action: ActionType, i: nat) returns (a: Id)
    requires Reachable(db) && i < |RecordsOf(db, action)|
    ensures a in db.approvals && db.approvals[a].proposal == RecordsOf(db, action)[i].proposal
    ensures a in db.decisions && IsApproving(db.decisions[a].kind)
  {
    hide Reachable, Consistent, OneApproval, DecisionsAgree, ExecutionsAgree, RecordsAgree;
    ReachableConsistent(db);
    Parts(db);
    RecordHasApproval(db, action, i);
    a := ApprovalByProposal(db, RecordsOf(db, action)[i].proposal).value;
  }

  /** While undecided, or rejected, a proposal has no execution, and no claim for it succeeds. */
  lemma UnapprovedNeverExecutes(db: Db, p: Id)
    requires Reachable(db) && p in db.proposals && db.proposals[p].status in {AwaitingApproval, Rejected}
    ensures forall e :: e in db.executions ==> db.executions[e].proposal != p
    ensures forall version, action, key, newId :: ClaimExecution(db, p, version, action, key, newId).Err?
  {
    hide Reachable, Consistent;
    ReachableConsistent(db);
    NoExecutionUnapproved(db, p);
  }

  lemma NoExecutionUnapproved(db: Db, p: Id)
    requires Consistent(db) && p in db.proposals && db.proposals[p].status in {AwaitingApproval, Rejected}
    ensures forall e :: e in db.executions ==> db.executions[e].proposal != p
    ensures forall version, action, key, newId :: ClaimExecution(db, p, version, action, key, newId).Err?
  {
    hide Consistent, ClaimExecution, References, OneApproval, DecisionsAgree, Numbered, RunsAgree, RecordsAgree, MoneyBounded, OneActive,
         FullCoversRemaining;
    Parts(db);
    forall e | e in db.executions
      ensures db.executions[e].proposal != p
    {
      assert ExecutionFits(db, e);
    }
    forall version, action, key, newId
      ensures ClaimExecution(db, p, version, action, key, newId).Err?
    {
      UnapprovedNeverClaims(db, p, version, action, key, newId);
    }
  }

  /** Once rejected, a proposal stays without execution whatever follows. */
  lemma RejectedNeverExecutes(db: Db, db': Db, p: Id)
    requires Reachable(db) && Leads(db, db') && p in db.proposals && db.proposals[p].status == Rejected
    ensures forall e :: e in db'.executions ==> db'.executions[e].proposal != p
    ensures forall version, action, key, newId :: ClaimExecution(db', p, version, action, key, newId).Err?
  {
    hide Reachable, Leads, Consistent, ClaimExecution, History;
    EndedProposalsStay(db, db', p);
    LeadsToHistory(db, db');
    NoExecutionUnapproved(db', p);
  }

  /** An interrupted execution can be taken over exactly while its proposal is approved or
      executing. */
  lemma InterruptedIsReclaimableIff(db: Db, id: Id)
    requires Reachable(db) && id in db.executions && db.executions[id].status in {Claimed, InProgress}
    ensures db.executions[id].proposal in db.proposals
    ensures ReclaimExecution(db, id).Ok? <==> db.proposals[db.executions[id].proposal].status in {Approved, Executing}
  {
    hide Reachable, Consistent, ReclaimExecution;
    ReachableConsistent(db);
    ReclaimFacts(db, id);
    ReclaimableIff(db, id);
  }
}
