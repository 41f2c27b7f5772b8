/** The promises of the workflow, for every reachable state and every later run. */
module ActionTheorems {
  import opened Outcomes
  import opened Text
  import opened ActionModel
  import opened ActionTransactions
  import opened ActionInvariants
  import opened SettlementPreservation
  import opened ActionRuns
  import opened ActionHistory

  // ---- Money ---------------------------------------------------------------------------

  lemma RecordIsOfDone(db: Db, action: ActionType, i: nat)
    requires RecordsAgree(db) && i < |RecordsOf(db, action)|
    ensures RecordFits(db, action, RecordsOf(db, action)[i])
  {
  }

  /** A proposal is paid at most once, whichever versions were executed. */
  lemma OneRecordPerProposal(db: Db, action: ActionType, i: nat, other: ActionType, j: nat)
    requires ExecutionsAgree(db) && RecordsAgree(db)
    requires i < |RecordsOf(db, action)| && j < |RecordsOf(db, other)|
    requires RecordsOf(db, action)[i].proposal == RecordsOf(db, other)[j].proposal
    ensures action == other && i == j
  {
    hide RecordsAgree, ExecutionsAgree;
    var first, second := RecordsOf(db, action)[i], RecordsOf(db, other)[j];
    RecordIsOfDone(db, action, i);
    RecordIsOfDone(db, other, j);
    DoneOnce(db, first.execution, second.execution);
    RecordsUnrepeated(db, action);
  }

  lemma DoneOnce(db: Db, e: Id, f: Id)
    requires ExecutionsAgree(db) && e in db.executions && f in db.executions && BothDone(db.executions[e], db.executions[f])
    ensures e == f
  {
  }

  lemma RecordsUnrepeated(db: Db, action: ActionType)
    requires RecordsAgree(db)
    ensures Unrepeated(RecordsOf(db, action))
  {
  }

  /** A full refund of the decided version takes exactly what is left, although recording a
      success never reads the scope: it covered what was left when it was decided, what is
      left never grows, and no refund takes more than is left. */
  lemma FullRefundTakesRemaining(db: Db, id: Id, s: Settlement, refunded: bool, approval: Id)
    requires FullCoversRemaining(db) && Settles(db, id, s, refunded)
    requires approval in db.decisions && IsApproving(db.decisions[approval].kind) && db.decisions[approval].decidedVersion == s.version
    requires s.action.Refund? && IsFullRefund(db.versions[s.version])
    ensures s.amount == Remaining(db, s.order) && refunded
    ensures var db' := SettledDb(db, id, s, refunded); Remaining(db', s.order) == 0 && db'.orders[s.order].status == OrderStatus.Refunded
  {
    assert DecidedFullCovers(db, s.version);
    SumWithRecord(db.refunds, SettlementRecord(id, s), s.order);
  }

  // ---- Approval before execution -----------------------------------------------------------

  /** A rejected or undecided proposal can never acquire a claim. */
  lemma UnapprovedNeverClaims(db: Db, proposal: Id, version: Id, action: ActionType, key: Key, newId: Id)
    requires ExecutionsAgree(db)
    requires proposal in db.proposals && db.proposals[proposal].status in {AwaitingApproval, Rejected}
    ensures ClaimExecution(db, proposal, version, action, key, newId).Err?
  {
    match ExecutionByKey(db, key)
    case Some(id) =>
      assert ExecutionFits(db, id);
    case None =>
  }

  /** Every record in a reachable state has a stored approving decision. */
  lemma RecordHasApproval(db: Db, action: ActionType, i: nat)
    requires OneApproval(db) && DecisionsAgree(db) && ExecutionsAgree(db) && RecordsAgree(db) && i < |RecordsOf(db, action)|
    ensures var approval := ApprovalByProposal(db, RecordsOf(db, action)[i].proposal);
            approval.Some? && approval.value in db.decisions && IsApproving(db.decisions[approval.value].kind)
  {
    hide RecordsAgree;
    RecordIsOfDone(db, action, i);
    var record := RecordsOf(db, action)[i];
    assert ExecutionFits(db, record.execution);
    assert ApprovalByProposal(db, record.proposal).Some?;
    assert ApprovalAgrees(db, ApprovalByProposal(db, record.proposal).value);
  }

  // ---- What the store alone does not promise ------------------------------------------------

  /** An interrupted execution can be taken over exactly while its proposal is approved or
      executing. */
  lemma ReclaimableIff(db: Db, id: Id)
    requires Consistent(db) && id in db.executions && db.executions[id].status in {Claimed, InProgress}
    ensures ReclaimExecution(db, id).Ok? <==> db.proposals[db.executions[id].proposal].status in {Approved, Executing}
  {
    hide Consistent;
    ReclaimFacts(db, id);
  }

  lemma ReclaimFacts(db: Db, id: Id)
    requires Consistent(db) && id in db.executions
    ensures var p := db.executions[id].proposal;
            && p in db.proposals && db.proposals[p].run in db.runs
            && (IsActive(db.proposals[p].status) ==> !ClashesWithActive(db, p))
  {
    assert ExecutionFits(db, id);
  }

  // ---- Decisions are idempotent and final -----------------------------------------------------

  /** Two verdicts with the same content; the decider does not count, and a currency
      counts only up to white space around it and letter case. */
  predicate SameVerdict(v: Verdict, w: Verdict) {
    && v.kind == w.kind
    && v.comment == w.comment
    && (v.change.Some? <==> w.change.Some?)
    && (v.change.Some? ==> SameChange(v.change.value, w.change.value))
  }

  predicate SameChange(a: NewVersion, b: NewVersion) {
    && a.amount == b.amount && NormalizeCurrency(a.currency) == NormalizeCurrency(b.currency)
    && a.reason == b.reason && a.reasonText == b.reasonText && a.parameters == b.parameters
  }

  /** What a first decision leaves behind. */
  ghost predicate DecidedAs(db: Db, id: Id, verdict: Verdict, decision: Decision) {
    && id in db.approvals
    && id in db.decisions && db.decisions[id] == decision
    && decision.kind == verdict.kind && decision.comment == verdict.comment
    && (verdict.change.Some? <==> verdict.kind.ApproveChanged?)
    && decision.decidedVersion in db.versions
    && (verdict.change.Some? ==> SameContent(verdict.change.value, db.versions[decision.decidedVersion]))
  }

  lemma FirstDecisionStored(db: Db, id: Id, verdict: Verdict, decisionId: Id, versionId: Id)
    requires id !in db.decisions && DecideApproval(db, id, verdict, decisionId, versionId).Ok?
    ensures var (db', reply) := DecideApproval(db, id, verdict, decisionId, versionId).value;
            reply.created && DecidedAs(db', id, verdict, reply.decision)
  {
  }

  lemma DecidedAsKept(db: Db, db': Db, id: Id, verdict: Verdict, decision: Decision)
    requires DecidedAs(db, id, verdict, decision) && History(db, db')
    ensures DecidedAs(db', id, verdict, decision)
  {
  }

  /** What deciding again answers: the first decision, or a refusal; the tables stay. */
  function FinalAnswer(db: Db, first: Verdict, again: Verdict, decision: Decision): Transaction<DecisionReply> {
    if again.decider !in db.members then Err(AdminRequired)
    else if SameVerdict(first, again) then Ok((db, DecisionReply(false, decision))) else Err(AlreadyDecided)
  }

  lemma DecideAgain(db: Db, id: Id, first: Verdict, decision: Decision, again: Verdict, decisionId: Id, versionId: Id)
    requires DecidedAs(db, id, first, decision)
    ensures DecideApproval(db, id, again, decisionId, versionId) == FinalAnswer(db, first, again, decision)
  {
  }

  /** After the first decision, and after anything else that happens in between, a decision
      with the same content by a member returns the first one and changes nothing, and a
      decision with any other content, or by nobody's member, is refused and changes nothing. */
  lemma DecisionIsFinal(db: Db, id: Id, first: Verdict, ids: (Id, Id), steps: seq<Step>, again: Verdict, decisionId: Id, versionId: Id)
    requires Consistent(db) && id !in db.decisions && DecideApproval(db, id, first, ids.0, ids.1).Ok?
    ensures var (decided, reply) := DecideApproval(db, id, first, ids.0, ids.1).value;
            DecideApproval(Exec(decided, steps), id, again, decisionId, versionId) == FinalAnswer(Exec(decided, steps), first, again, reply.decision)
  {
    hide Consistent, History, DecideApproval, DecidedAs;
    var (decided, reply) := DecideApproval(db, id, first, ids.0, ids.1).value;
    FirstDecisionStored(db, id, first, ids.0, ids.1);
    DecideKeeps(db, id, first, ids.0, ids.1);
    RunsKeepHistory(decided, steps);
    DecidedAsKept(decided, Exec(decided, steps), id, first, reply.decision);
    DecideAgain(Exec(decided, steps), id, first, reply.decision, again, decisionId, versionId);
  }

  // ---- Attempts are accounted for ----------------------------------------------------------------

  predicate IsClaimOf(entry: AuditEntry, execution: Id) {
    entry.event == ExecutionClaimed && entry.resource == ExecutionResource(execution)
  }

  function ClaimEntries(audit: seq<AuditEntry>, execution: Id): nat {
    if audit == [] then 0
    else ClaimEntries(audit[..|audit| - 1], execution) + if IsClaimOf(audit[|audit| - 1], execution) then 1 else 0
  }

  function Attempts(db: Db, execution: Id): nat {
    if execution in db.executions then db.executions[execution].attempts else 0
  }

  /** Claim entries a caller wrote itself through append_audit_log. */
  ghost function ForgedBy(db: Db, step: Step, execution: Id): nat {
    if step.Append? && IsClaimOf(step.entry, execution) && AppendAuditLog(db, step.entry, step.detailsValid).Ok? then 1 else 0
  }

  ghost function Forged(db: Db, steps: seq<Step>, execution: Id): nat {
    if steps == [] then 0
    else
      var before := steps[..|steps| - 1];
      Forged(db, before, execution) + ForgedBy(Exec(db, before), steps[|steps| - 1], execution)
  }

  lemma {:induction false} EntriesAppended(audit: seq<AuditEntry>, entry: AuditEntry, execution: Id)
    ensures ClaimEntries(audit + [entry], execution)
         == ClaimEntries(audit, execution) + if IsClaimOf(entry, execution) then 1 else 0
  {
    assert (audit + [entry])[..|audit|] == audit;
  }

  lemma {:induction false} EntriesAppendedAll(audit: seq<AuditEntry>, more: seq<AuditEntry>, execution: Id)
    requires forall i :: 0 <= i < |more| ==> !IsClaimOf(more[i], execution)
    ensures ClaimEntries(audit + more, execution) == ClaimEntries(audit, execution)
  {
    if more == [] {
      assert audit + more == audit;
    } else {
      var init := more[..|more| - 1];
      assert audit + more == (audit + init) + [more[|more| - 1]];
      EntriesAppended(audit + init, more[|more| - 1], execution);
      EntriesAppendedAll(audit, init, execution);
    }
  }

  /** The attempts and the claim entries of an execution grow together. */
  ghost predicate CountsTogether(db: Db, db': Db, execution: Id, forged: nat) {
    ClaimEntries(db'.audit, execution) + Attempts(db, execution) == ClaimEntries(db.audit, execution) + Attempts(db', execution) + forged
  }

  lemma StoreClaimCounts(db: Db, id: Id, row: Execution, allowed: set<ProposalStatus>, execution: Id)
    requires StoreClaim(db, id, row, allowed).Ok? && row.attempts == Attempts(db, id) + 1
    ensures CountsTogether(db, StoreClaim(db, id, row, allowed).value.0, execution, 0)
  {
    StoreClaimAudit(db, id, row, allowed);
    EntriesAppended(db.audit, AuditEntry(db.proposals[row.proposal].run, Some(row.proposal), System, ExecutionClaimed, ExecutionResource(id)), execution);
  }

  lemma ClaimCounts(db: Db, proposal: Id, version: Id, action: ActionType, key: Key, newId: Id, execution: Id)
    ensures CountsTogether(db, Committed(db, ClaimExecution(db, proposal, version, action, key, newId)), execution, 0)
  {
    hide StoreClaim, CountsTogether;
    if ClaimExecution(db, proposal, version, action, key, newId).Ok? {
      match ExecutionByKey(db, key)
      case Some(id) =>
        var ex := db.executions[id];
        if ex.status == FailedRetryable {
          StoreClaimCounts(db, id, Reclaimed(ex), {Approved, Executing, ProposalFailed}, execution);
        } else {
          NothingCounts(db, execution);
        }
      case None =>
        var row := Execution(proposal, version, action, key, Claimed, 1, None, None, false, false);
        StoreClaimCounts(db, newId, row, {Approved, Executing, ProposalFailed}, execution);
    } else {
      NothingCounts(db, execution);
    }
  }

  lemma NothingCounts(db: Db, execution: Id)
    ensures CountsTogether(db, db, execution, 0)
  {
  }

  lemma ReclaimCounts(db: Db, id: Id, execution: Id)
    ensures CountsTogether(db, Committed(db, ReclaimExecution(db, id)), execution, 0)
  {
    if ReclaimExecution(db, id).Ok? && db.executions[id].status in {Claimed, InProgress} {
      StoreClaimCounts(db, id, Reclaimed(db.executions[id]), {Approved, Executing}, execution);
    }
  }

  /** Entries without a claim, and executions whose attempts stay. */
  lemma OtherEntriesCount(db: Db, db': Db, more: seq<AuditEntry>, execution: Id)
    requires db'.audit == db.audit + more && forall i :: 0 <= i < |more| ==> !IsClaimOf(more[i], execution)
    requires Attempts(db', execution) == Attempts(db, execution)
    ensures CountsTogether(db, db', execution, 0)
  {
    EntriesAppendedAll(db.audit, more, execution);
  }

  lemma FailureCounts(db: Db, id: Id, errorCode: string, retryable: bool, execution: Id)
    ensures CountsTogether(db, Committed(db, RecordFailure(db, id, errorCode, retryable)), execution, 0)
  {
    hide CountsTogether, ClaimEntries;
    FailureAppends(db, id, errorCode, retryable);
    var db' := Committed(db, RecordFailure(db, id, errorCode, retryable));
    OtherEntriesCount(db, db', db'.audit[|db.audit|..], execution);
  }

  lemma WorkflowFailureCounts(db: Db, run: Id, errorCode: string, retryable: bool, execution: Id)
    ensures CountsTogether(db, Committed(db, RecordWorkflowFailure(db, run, errorCode, retryable)), execution, 0)
  {
    hide CountsTogether, ClaimEntries;
    WorkflowFailureAppends(db, run, errorCode, retryable);
    var db' := Committed(db, RecordWorkflowFailure(db, run, errorCode, retryable));
    OtherEntriesCount(db, db', db'.audit[|db.audit|..], execution);
  }

  lemma TransitionCounts(db: Db, run: Id, t: Transition, execution: Id)
    ensures CountsTogether(db, Committed(db, TransitionRun(db, run, t)), execution, 0)
  {
    hide CountsTogether, ClaimEntries;
    TransitionAppends(db, run, t);
    var db' := Committed(db, TransitionRun(db, run, t));
    OtherEntriesCount(db, db', db'.audit[|db.audit|..], execution);
  }

  lemma CreateCounts(db: Db, request: Request, ids: NewIds, execution: Id)
    ensures CountsTogether(db, Committed(db, CreateWorkflow(db, request, ids)), execution, 0)
  {
    hide CountsTogether, ClaimEntries;
    var db' := Committed(db, CreateWorkflow(db, request, ids));
    OtherEntriesCount(db, db', db'.audit[|db.audit|..], execution);
  }

  lemma DecideCounts(db: Db, id: Id, verdict: Verdict, decisionId: Id, versionId: Id, execution: Id)
    ensures CountsTogether(db, Committed(db, DecideApproval(db, id, verdict, decisionId, versionId)), execution, 0)
  {
    hide CountsTogether, ClaimEntries, ResolveVersion;
    var db' := Committed(db, DecideApproval(db, id, verdict, decisionId, versionId));
    OtherEntriesCount(db, db', db'.audit[|db.audit|..], execution);
  }

  lemma SuccessCounts(db: Db, id: Id, s: Settlement, execution: Id)
    ensures CountsTogether(db, Committed(db, RecordSuccess(db, id, s)), execution, 0)
  {
    hide CountsTogether, ClaimEntries;
    var db' := Committed(db, RecordSuccess(db, id, s));
    if RecordSuccess(db, id, s).Ok? {
      SuccessSettles(db, id, s);
    }
    OtherEntriesCount(db, db', db'.audit[|db.audit|..], execution);
  }

  lemma AppendCounts(db: Db, entry: AuditEntry, detailsValid: bool, execution: Id)
    ensures CountsTogether(db, Committed(db, AppendAuditLog(db, entry, detailsValid)), execution,
                           ForgedBy(db, Append(entry, detailsValid), execution))
  {
    EntriesAppended(db.audit, entry, execution);
  }

  lemma StepCounts(db: Db, step: Step, execution: Id)
    ensures CountsTogether(db, Apply(db, step), execution, ForgedBy(db, step, execution))
  {
    hide CountsTogether, CreateWorkflow, DecideApproval, ClaimExecution, ReclaimExecution, RecordSuccess, RecordFailure,
         RecordWorkflowFailure, TransitionRun, AppendAuditLog;
    match step
    case Create(request, ids) => CreateCounts(db, request, ids, execution);
    case Decide(id, verdict, decisionId, versionId) => DecideCounts(db, id, verdict, decisionId, versionId, execution);
    case ClaimStep(proposal, version, action, key, newId) => ClaimCounts(db, proposal, version, action, key, newId, execution);
    case Reclaim(id) => ReclaimCounts(db, id, execution);
    case Mark(id) => MarkCounts(db, id, execution);
    case Succeed(id, settlement) => SuccessCounts(db, id, settlement, execution);
    case Fail(id, errorCode, retryable) => FailureCounts(db, id, errorCode, retryable, execution);
    case FailWorkflow(run, errorCode, retryable) => WorkflowFailureCounts(db, run, errorCode, retryable, execution);
    case Move(run, transition) => TransitionCounts(db, run, transition, execution);
    case Append(entry, detailsValid) => AppendCounts(db, entry, detailsValid, execution);
    case AddOrder(order, row) => OtherEntriesCount(db, Apply(db, step), [], execution);
    case AddMember(user) => OtherEntriesCount(db, Apply(db, step), [], execution);
    case RemoveMember(user) => OtherEntriesCount(db, Apply(db, step), [], execution);
  }

  lemma MarkCounts(db: Db, id: Id, execution: Id)
    ensures CountsTogether(db, Committed(db, MarkRunning(db, id)), execution, 0)
  {
  }

  /** The claim entries of an execution number its attempts, plus exactly the entries that
      callers of append_audit_log wrote under the name of a claim. */
  lemma {:induction false} AttemptsAreAudited(db: Db, steps: seq<Step>, execution: Id)
    requires Initial(db)
    ensures var db' := Exec(db, steps);
            ClaimEntries(db'.audit, execution) == Attempts(db', execution) + Forged(db, steps, execution)
  {
    hide Apply, ForgedBy;
    if steps != [] {
      var before := steps[..|steps| - 1];
      AttemptsAreAudited(db, before, execution);
      StepCounts(Exec(db, before), steps[|steps| - 1], execution);
    }
  }
}
