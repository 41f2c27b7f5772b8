/** What the store alone does not promise, and exactly when it holds: that a succeeded run has a
    record, and that a failed run can be taken up again. */
module ActionGaps {
  import opened Outcomes
  import opened Text
  import opened ActionModel
  import opened ActionTransactions
  import opened ActionInvariants
  import opened ActionPreservation
  import opened SettlementPreservation
  import opened DecisionPreservation
  import opened CreationPreservation
  import opened ActionRuns
  import opened ActionHistory
  import opened ActionTheorems
  import opened ActionPromises

  // ---- When a succeeded run has a record -----------------------------------------------------

  function Owned(records: seq<Record>, p: Id): nat {
    if records == [] then 0 else Owned(records[..|records| - 1], p) + if records[|records| - 1].proposal == p then 1 else 0
  }

  /** The records of a proposal, of either table. */
  function RecordCount(db: Db, p: Id): nat {
    Owned(db.refunds, p) + Owned(db.compensations, p)
  }

  predicate Owns(records: seq<Record>, p: Id) {
    exists i :: 0 <= i < |records| && records[i].proposal == p
  }

  predicate AtMostOne(records: seq<Record>, p: Id) {
    forall i, j :: 0 <= i < j < |records| ==> !(records[i].proposal == p && records[j].proposal == p)
  }

  lemma {:induction false} OwnedOnce(records: seq<Record>, p: Id)
    requires AtMostOne(records, p)
    ensures Owned(records, p) == if Owns(records, p) then 1 else 0
  {
    if records != [] {
      var n := |records| - 1;
      OwnedOnce(records[..n], p);
      assert forall i :: 0 <= i < n ==> records[..n][i] == records[i];
      if i :| 0 <= i < |records| && records[i].proposal == p {
        assert i < n ==> records[..n][i].proposal == p;
      }
    }
  }

  lemma RecordsDistinct(db: Db, action: ActionType, p: Id)
    requires ExecutionsAgree(db) && RecordsAgree(db)
    ensures AtMostOne(RecordsOf(db, action), p)
  {
    hide ExecutionsAgree, RecordsAgree;
    var records := RecordsOf(db, action);
    forall i, j | 0 <= i < j < |records|
      ensures !(records[i].proposal == p && records[j].proposal == p)
    {
      if records[i].proposal == p && records[j].proposal == p {
        OneRecordPerProposal(db, action, i, action, j);
      }
    }
  }

  lemma OneTable(db: Db, p: Id)
    requires ExecutionsAgree(db) && RecordsAgree(db)
    ensures !(Owns(db.refunds, p) && Owns(db.compensations, p))
  {
    hide ExecutionsAgree, RecordsAgree;
    if Owns(db.refunds, p) && Owns(db.compensations, p) {
      var i :| 0 <= i < |db.refunds| && db.refunds[i].proposal == p;
      var j :| 0 <= j < |db.compensations| && db.compensations[j].proposal == p;
      OneRecordPerProposal(db, Refund, i, Compensation, j);
    }
  }

  lemma OwnedIffSucceeded(db: Db, p: Id)
    requires ExecutionsAgree(db) && RecordsAgree(db) && SuccessesExecuted(db) && p in db.proposals
    ensures Owns(db.refunds, p) || Owns(db.compensations, p) <==> db.proposals[p].status == ProposalSucceeded
  {
    if i :| 0 <= i < |db.refunds| && db.refunds[i].proposal == p {
      RecordOfSucceeded(db, Refund, i);
    }
    if i :| 0 <= i < |db.compensations| && db.compensations[i].proposal == p {
      RecordOfSucceeded(db, Compensation, i);
    }
    if db.proposals[p].status == ProposalSucceeded {
      var e :| e in db.executions && db.executions[e].status == Done && db.executions[e].proposal == p;
      assert RecordedOnce(db, e);
      var i :| 0 <= i < |RecordsOf(db, db.executions[e].action)| && RecordsOf(db, db.executions[e].action)[i].execution == e;
      RecordIsOfDone(db, db.executions[e].action, i);
    }
  }

  lemma RecordOfSucceeded(db: Db, action: ActionType, i: nat)
    requires ExecutionsAgree(db) && RecordsAgree(db) && i < |RecordsOf(db, action)|
    ensures var p := RecordsOf(db, action)[i].proposal; p in db.proposals && db.proposals[p].status == ProposalSucceeded
  {
    RecordIsOfDone(db, action, i);
    assert ExecutionFits(db, RecordsOf(db, action)[i].execution);
  }

  /** In every reachable state a proposal has one record if it has succeeded and none otherwise. */
  lemma RecordsOfProposal(db: Db, p: Id)
    requires Reachable(db) && p in db.proposals
    ensures RecordCount(db, p) == if db.proposals[p].status == ProposalSucceeded then 1 else 0
  {
    hide Reachable, Consistent, ExecutionsAgree, RecordsAgree, SuccessesExecuted, References, OneApproval, DecisionsAgree, Numbered,
         RunsAgree, MoneyBounded, OneActive, FullCoversRemaining, Owns, AtMostOne;
    ReachableConsistent(db);
    Parts(db);
    RecordsDistinct(db, Refund, p);
    RecordsDistinct(db, Compensation, p);
    OwnedOnce(db.refunds, p);
    OwnedOnce(db.compensations, p);
    OneTable(db, p);
    OwnedIffSucceeded(db, p);
  }

  /** The exact condition: a succeeded run has exactly one record, of its proposal, if and only if
      that proposal has succeeded too; otherwise it has none. */
  lemma SucceededRunHasRecordIff(db: Db, r: Id)
    requires Reachable(db) && r in db.runs && db.runs[r].status == Succeeded
    ensures db.runs[r].proposal.Some? && db.runs[r].proposal.value in db.proposals
    ensures var p := db.runs[r].proposal.value;
            && (RecordCount(db, p) == 1 <==> db.proposals[p].status == ProposalSucceeded)
            && (RecordCount(db, p) == 0 <==> db.proposals[p].status != ProposalSucceeded)
  {
    hide Reachable, RecordCount;
    RunHasProposal(db, r);
    RecordsOfProposal(db, db.runs[r].proposal.value);
  }

  lemma RunHasProposal(db: Db, r: Id)
    requires Reachable(db) && r in db.runs
    ensures db.runs[r].proposal.Some? && db.runs[r].proposal.value in db.proposals
    ensures db.proposals[db.runs[r].proposal.value].run == r
    ensures db.runs[r].status != Succeeded ==> db.proposals[db.runs[r].proposal.value].status != ProposalSucceeded
  {
    hide Reachable, Consistent, OneApproval, DecisionsAgree, Numbered, ExecutionsAgree, RecordsAgree, SuccessesExecuted, MoneyBounded,
         OneActive, FullCoversRemaining;
    ReachableConsistent(db);
    Parts(db);
  }

  /** The run has ended as succeeded although its proposal has not. */
  predicate IsBare(db: Db, r: Id, p: Id) {
    && r in db.runs && db.runs[r].status == Succeeded
    && p in db.proposals && db.proposals[p].run == r && db.proposals[p].status != ProposalSucceeded
  }

  lemma StepKeepsBare(db: Db, step: Step, r: Id, p: Id)
    requires Consistent(db) && IsBare(db, r, p)
    ensures IsBare(Apply(db, step), r, p)
  {
    hide Consistent, IsBare, CreateWorkflow, DecideApproval, RecordSuccess;
    ConsistentDecisions(db);
    match step
    case Create(request, ids) => CreateKeepsBare(db, request, ids, r, p);
    case Decide(approval, verdict, decisionId, versionId) => DecideKeepsBare(db, approval, verdict, decisionId, versionId, r, p);
    case Succeed(id, s) => SucceedKeepsBare(db, id, s, r, p);
    case AddOrder(order, row) => AddOrderKeepsBare(db, order, row, r, p);
    case _ => AdvanceKeepsBare(db, step, r, p);
  }

  lemma CreateKeepsBare(db: Db, request: Request, ids: NewIds, r: Id, p: Id)
    requires IsBare(db, r, p)
    ensures IsBare(Committed(db, CreateWorkflow(db, request, ids)), r, p)
  {
    hide CreateWorkflow;
    if CreateWorkflow(db, request, ids).Ok? {
      CreationCreates(db, request, ids);
    }
  }

  lemma DecideKeepsBare(db: Db, id: Id, verdict: Verdict, decisionId: Id, versionId: Id, r: Id, p: Id)
    requires IsBare(db, r, p)
    ensures IsBare(Committed(db, DecideApproval(db, id, verdict, decisionId, versionId)), r, p)
  {
    hide DecideApproval;
    if DecideApproval(db, id, verdict, decisionId, versionId).Ok? {
      var inserted := DecisionDecides(db, id, verdict, decisionId, versionId);
    }
  }

  lemma SucceedKeepsBare(db: Db, id: Id, s: Settlement, r: Id, p: Id)
    requires IsBare(db, r, p)
    ensures IsBare(Committed(db, RecordSuccess(db, id, s)), r, p)
  {
    hide RecordSuccess;
    if RecordSuccess(db, id, s).Ok? {
      SuccessSettles(db, id, s);
    }
  }

  lemma AddOrderKeepsBare(db: Db, order: Id, row: Order, r: Id, p: Id)
    requires IsBare(db, r, p)
    ensures IsBare(Apply(db, AddOrder(order, row)), r, p)
  {
  }

  lemma ConsistentDecisions(db: Db)
    requires Consistent(db)
    ensures DecisionsAgree(db) && FlagsAgree(db.runs) && OneActive(db.proposals)
  {
  }

  lemma AdvanceKeepsBare(db: Db, step: Step, r: Id, p: Id)
    requires FlagsAgree(db.runs) && OneActive(db.proposals) && IsAdvancing(step) && IsBare(db, r, p)
    ensures IsBare(Apply(db, step), r, p)
  {
    hide Apply, FlagsAgree, OneActive;
    if Apply(db, step) != db {
      AdvancingStepAdvances(db, step);
      assert RunAdvances(db.runs[r], Apply(db, step).runs[r]);
      assert ProposalAdvances(db.proposals[p], Apply(db, step).proposals[p]);
    }
  }

  lemma {:induction false} RunsKeepBare(db: Db, steps: seq<Step>, r: Id, p: Id)
    requires Consistent(db) && IsBare(db, r, p)
    ensures IsBare(Exec(db, steps), r, p)
  {
    hide Apply, Consistent, IsBare;
    if steps != [] {
      var init := steps[..|steps| - 1];
      RunsKeepBare(db, init, r, p);
      RunsKeepConsistency(db, init);
      StepKeepsBare(Exec(db, init), steps[|steps| - 1], r, p);
    }
  }

  lemma ReachableNext(db: Db, step: Step)
    requires Reachable(db)
    ensures Reachable(Apply(db, step)) && Leads(db, Apply(db, step))
  {
    hide Apply, Reachable, Leads, Exec;
    OneStep(db, step);
    LeadsIff(db, Apply(db, step));
    ReachableLater(db, Apply(db, step));
  }

  lemma {:induction false} OneStep(db: Db, step: Step)
    ensures Exec(db, [step]) == Apply(db, step)
  {
    hide Apply;
    assert [step][..0] == [];
    assert Exec(db, []) == db;
  }

  lemma ReachableLater(db: Db, later: Db)
    requires Reachable(db) && Leads(db, later)
    ensures Reachable(later)
  {
    hide Transactions, Initial;
    var initial :| Initial(initial) && Leads(initial, db);
    var before := RunOf(initial, db);
    var after := RunOf(db, later);
    ExecAppend(initial, before, after);
    LeadsIff(initial, later);
  }

  lemma {:induction false} ExecAppend(db: Db, before: seq<Step>, after: seq<Step>)
    ensures Exec(db, before + after) == Exec(Exec(db, before), after)
  {
    hide Apply;
    if after == [] {
      assert before + after == before;
    } else {
      assert (before + after)[..|before + after| - 1] == before + after[..|after| - 1];
      ExecAppend(db, before, after[..|after| - 1]);
    }
  }

  /** Every transition_run that ends a run as succeeded, from any reachable state, leaves it
      without any record, then and ever after. */
  lemma TransitionLeavesNoRecord(db: Db, r: Id, t: Transition, later: Db)
    requires Reachable(db) && t.status == Succeeded && TransitionRun(db, r, t).Ok?
    requires Leads(TransitionRun(db, r, t).value.0, later)
    ensures r in later.runs && later.runs[r].status == Succeeded
    ensures later.runs[r].proposal.Some? && RecordCount(later, later.runs[r].proposal.value) == 0
  {
    hide Reachable, Leads, Consistent, RecordCount, Exec;
    var ended := TransitionRun(db, r, t).value.0;
    TransitionEnds(db, r, t);
    RunHasProposal(db, r);
    var p := db.runs[r].proposal.value;
    assert Apply(db, Move(r, t)) == ended;
    ReachableNext(db, Move(r, t));
    ReachableConsistent(ended);
    var steps := RunOf(ended, later);
    RunsKeepBare(ended, steps, r, p);
    ReachableLater(ended, later);
    LeadsToHistory(ended, later);
    RunHasProposal(later, r);
    assert RunKept(ended.runs[r], later.runs[r]);
    RecordsOfProposal(later, p);
  }

  lemma TransitionEnds(db: Db, r: Id, t: Transition)
    requires t.status == Succeeded && TransitionRun(db, r, t).Ok?
    ensures r in db.runs && db.runs[r].status == Running
    ensures var ended := TransitionRun(db, r, t).value.0;
            && ended.runs == db.runs[r := RunMoved(db.runs[r], Succeeded, None, false)] && ended.proposals == db.proposals
  {
  }

  /** And every running run of a reachable state can be ended so. */
  lemma RunningRunCanEndBare(db: Db, r: Id, event: Event)
    requires Reachable(db) && r in db.runs && db.runs[r].status == Running
    ensures TransitionRun(db, r, Transition({Running}, Succeeded, None, false, System, event, true)).Ok?
  {
    hide Reachable;
    RunHasProposal(db, r);
  }

  // ---- When a failed run strands its execution ---------------------------------------------------------

  /** Recording a workflow failure for a running run whose execution is unfinished always
      succeeds in a reachable state, whether it is called retryable or not, and always makes that
      execution impossible to take over: the method is meant for runs without an execution. */
  lemma WorkflowFailureStrands(db: Db, r: Id, errorCode: string, retryable: bool, e: Id)
    requires Reachable(db) && r in db.runs && db.runs[r].status == Running
    requires e in db.executions && db.executions[e].status in {Claimed, InProgress} && db.runs[r].proposal == Some(db.executions[e].proposal)
    ensures RecordWorkflowFailure(db, r, errorCode, retryable).Ok?
    ensures var failed := RecordWorkflowFailure(db, r, errorCode, retryable).value.0;
            failed.executions == db.executions && ReclaimExecution(failed, e) == Err(RunStateConflict)
  {
    hide Reachable, Consistent, References, OneApproval, DecisionsAgree, Numbered, RunsAgree, RecordsAgree, SuccessesExecuted, MoneyBounded,
         OneActive, FullCoversRemaining, RecordWorkflowFailure, ReclaimExecution;
    RunHasProposal(db, r);
    ReachableConsistent(db);
    Parts(db);
    assert ExecutionFits(db, e);
    RunningRunFails(db, r, errorCode, retryable);
    ReclaimNeedsProposal(RecordWorkflowFailure(db, r, errorCode, retryable).value.0, e);
  }

  lemma RunningRunFails(db: Db, r: Id, errorCode: string, retryable: bool)
    requires r in db.runs && db.runs[r].status == Running && db.runs[r].proposal.Some? && db.runs[r].proposal.value in db.proposals
    requires db.proposals[db.runs[r].proposal.value].status in {Approved, Executing, ProposalFailed}
    requires db.proposals[db.runs[r].proposal.value].run == r
    ensures RecordWorkflowFailure(db, r, errorCode, retryable).Ok?
    ensures var (failed, p) := (RecordWorkflowFailure(db, r, errorCode, retryable).value.0, db.runs[r].proposal.value);
            failed.executions == db.executions && p in failed.proposals && failed.proposals[p].status == ProposalFailed
  {
  }

  lemma ReclaimNeedsProposal(db: Db, e: Id)
    requires e in db.executions && db.executions[e].status in {Claimed, InProgress}
    requires db.executions[e].proposal in db.proposals && db.proposals[db.executions[e].proposal].status !in {Approved, Executing}
    ensures ReclaimExecution(db, e) == Err(RunStateConflict)
  {
  }

  // ---- A reachable state with a running run and a claimed execution ------------------------------------

  const SAMPLE_REQUEST := Request(1, 1, 1, 1, Refund, 50, "CNY", CustomerCancellation, "", RefundParameters(Partial, ""))

  const SAMPLE_IDS := NewIds(1, 1, 1, 1)

  const SAMPLE_START := Db({1}, map[1 := Order(Paid, 100, "CNY")], map[], map[], map[], map[], map[], map[], [], [], [])

  /** The tables of a sample workflow, the audit log aside. */
  predicate IsSample(db: Db, runStatus: RunStatus, proposalStatus: ProposalStatus) {
    && db.members == {1} && db.orders == SAMPLE_START.orders && db.refunds == [] && db.compensations == []
    && db.runs.Keys == {1} && db.runs[1].status == runStatus && db.runs[1].proposal == Some(1)
    && db.proposals == map[1 := Proposal(1, 1, Refund, proposalStatus, 1, 1)]
    && db.versions == map[1 := FirstVersion(SAMPLE_REQUEST, SAMPLE_IDS)]
    && db.approvals.Keys == {1} && db.approvals[1].proposal == 1 && db.approvals[1].requestedVersion == 1
  }

  lemma SampleCurrency()
    ensures NormalizeCurrency("CNY") == "CNY"
  {
    assert StripLeft("CNY") == "CNY" && StripRight("CNY") == "CNY";
    assert Upper("CNY") == "CNY";
  }

  lemma SampleCreated() returns (db: Db)
    ensures Reachable(db) && IsSample(db, Queued, AwaitingApproval)
    ensures db.approvals[1].status == Pending && db.decisions == map[] && db.executions == map[]
  {
    hide Reachable, NormalizeCurrency, Leads, Apply;
    SampleCurrency();
    StartIsReachable();
    var create := Create(SAMPLE_REQUEST, SAMPLE_IDS);
    ReachableNext(SAMPLE_START, create);
    db := Apply(SAMPLE_START, create);
    SampleCreates();
  }

  lemma StartIsReachable()
    ensures Reachable(SAMPLE_START)
  {
    hide Leads;
    assert Initial(SAMPLE_START);
    LeadsItself(SAMPLE_START);
  }

  lemma SampleCreates()
    ensures var db := Apply(SAMPLE_START, Create(SAMPLE_REQUEST, SAMPLE_IDS));
            && IsSample(db, Queued, AwaitingApproval)
            && db.approvals[1].status == Pending && db.decisions == map[] && db.executions == map[]
  {
    hide NormalizeCurrency;
    SampleCurrency();
    assert SumFor([], 1) == 0;
    assert CreateWorkflow(SAMPLE_START, SAMPLE_REQUEST, SAMPLE_IDS).Ok?;
  }

  lemma SampleDecided() returns (db: Db)
    ensures Reachable(db) && IsSample(db, Queued, Approved) && db.executions == map[]
  {
    hide Reachable, Leads, Apply;
    var created := SampleCreated();
    var decide := Decide(1, Verdict(1, Approve, None, None), 1, 2);
    ReachableNext(created, decide);
    db := Apply(created, decide);
    SampleDecides(created);
  }

  lemma SampleDecides(db: Db)
    requires IsSample(db, Queued, AwaitingApproval) && db.approvals[1].status == Pending && db.decisions == map[] && db.executions == map[]
    ensures var db' := Apply(db, Decide(1, Verdict(1, Approve, None, None), 1, 2));
            IsSample(db', Queued, Approved) && db'.executions == map[]
  {
    hide NormalizeCurrency;
    assert SumFor([], 1) == 0;
    var verdict := Verdict(1, Approve, None, None);
    assert ResolveVersion(db, db.approvals[1], verdict) == Ok(None);
    assert DecideApproval(db, 1, verdict, 1, 2) == Ok((DecidedDb(db, 1, verdict, 1, 1, None), DecisionReply(true, Decision(1, Approve, 1, 1, None))));
  }

  const SAMPLE_MOVE := Transition({Queued}, Running, None, false, System, OtherEvent("workflow_started"), true)

  /** A run waiting for its execution can be reached, so what the lemmas above say can happen. */
  lemma ClaimedRunIsReachable() returns (db: Db, r: Id, e: Id)
    ensures Reachable(db) && r in db.runs && db.runs[r].status == Running
    ensures e in db.executions && db.executions[e].status == Claimed && db.runs[r].proposal == Some(db.executions[e].proposal)
  {
    hide Reachable, Leads, Apply;
    var decided := SampleDecided();
    ReachableNext(decided, Move(1, SAMPLE_MOVE));
    var started := Apply(decided, Move(1, SAMPLE_MOVE));
    SampleMoves(decided);
    var claim := ClaimStep(1, 1, Refund, Key(1, 1, Refund), 1);
    ReachableNext(started, claim);
    SampleClaims(started);
    db, r, e := Apply(started, claim), 1, 1;
  }

  lemma SampleMoves(db: Db)
    requires IsSample(db, Queued, Approved) && db.executions == map[]
    ensures var db' := Apply(db, Move(1, SAMPLE_MOVE)); IsSample(db', Running, Approved) && db'.executions == map[]
  {
    hide NormalizeCurrency;
    assert TransitionRun(db, 1, SAMPLE_MOVE).Ok?;
  }

  lemma SampleClaims(db: Db)
    requires IsSample(db, Running, Approved) && db.executions == map[]
    ensures var db' := Apply(db, ClaimStep(1, 1, Refund, Key(1, 1, Refund), 1));
            && db'.runs == db.runs
            && 1 in db'.executions && db'.executions[1].status == Claimed && db'.executions[1].proposal == 1
  {
    hide NormalizeCurrency;
    assert !ClashesWithActive(db, 1);
    assert ClaimExecution(db, 1, 1, Refund, Key(1, 1, Refund), 1).Ok?;
  }

  /** So a claimed execution can be stranded, and a run can succeed without any record. */
  lemma GapsAreReachable() returns (stranded: Db, e: Id, bare: Db, r: Id)
    ensures Reachable(stranded) && e in stranded.executions && stranded.executions[e].status == Claimed
    ensures ReclaimExecution(stranded, e).Err?
    ensures Reachable(bare) && r in bare.runs && bare.runs[r].status == Succeeded
    ensures bare.runs[r].proposal.Some? && RecordCount(bare, bare.runs[r].proposal.value) == 0
  {
    hide Reachable, Leads, RecordCount, RecordWorkflowFailure, TransitionRun, ReclaimExecution;
    var db: Db;
    db, r, e := ClaimedRunIsReachable();
    WorkflowFailureStrands(db, r, "WORKFLOW_FAILED", true, e);
    ReachableNext(db, FailWorkflow(r, "WORKFLOW_FAILED", true));
    stranded := RecordWorkflowFailure(db, r, "WORKFLOW_FAILED", true).value.0;
    var t := Transition({Running}, Succeeded, None, false, System, RunSucceeded, true);
    RunningRunCanEndBare(db, r, RunSucceeded);
    ReachableNext(db, Move(r, t));
    bare := TransitionRun(db, r, t).value.0;
    LeadsItself(bare);
    TransitionLeavesNoRecord(db, r, t, bare);
  }

  lemma LeadsItself(db: Db)
    ensures Leads(db, db)
  {
    hide Leads, Apply;
    var none: seq<Step> := [];
    assert db == Exec(db, none);
    LeadsIff(db, db);
  }
}
