/** The store as the object it is: a database that each write method changes statement by
    statement inside one transaction, and puts back as it was when it raises.

    Every method is proved to do what its transaction function says, and to keep the
    tables consistent. */
module ActionStore {
  import opened Outcomes
  import opened Numbering
  import opened Text
  import opened ActionModel
  import opened ActionTransactions
  import opened ActionInvariants
  import opened CreationPreservation
  import opened ActionRuns

  /** A transaction that ended: committed with its tables and its value, or rolled back. */
  predicate Settled<T(==)>(before: Db, after: Db, transaction: Transaction<T>, outcome: Outcome<T, Error>) {
    match transaction
    case Ok((db, value)) => after == db && outcome == Ok(value)
    case Err(error) => after == before && outcome == Err(error)
  }

  /** The same for a step inside a transaction that returns no row. */
  predicate Stepped(before: Db, after: Db, step: Outcome<Db, Error>, outcome: Outcome<(), Error>) {
    match step
    case Ok(db) => after == db && outcome == Ok(())
    case Err(error) => after == before && outcome == Err(error)
  }

  lemma OneByKey(db: Db, e: Id)
    requires ExecutionsAgree(db) && e in db.executions
    ensures ExecutionByKey(db, db.executions[e].key) == Some(e)
  {
  }

  lemma OneByExecution(records: seq<Record>, i: nat)
    requires Unrepeated(records) && i < |records|
    ensures RecordByExecution(records, records[i].execution) == Some(records[i].id)
  {
  }

  lemma ConsistentRows(db: Db)
    requires Consistent(db)
    ensures ExecutionsAgree(db) && Unrepeated(db.refunds) && Unrepeated(db.compensations)
  {
  }

  lemma ClaimKeeps(db: Db, proposal: Id, version: Id, action: ActionType, key: Key, newId: Id)
    requires Consistent(db)
    ensures Consistent(Committed(db, ClaimExecution(db, proposal, version, action, key, newId)))
  {
    hide Consistent, ClaimExecution;
    StepKeeps(db, ClaimStep(proposal, version, action, key, newId));
  }

  lemma ReclaimKeeps(db: Db, id: Id)
    requires Consistent(db)
    ensures Consistent(Committed(db, ReclaimExecution(db, id)))
  {
    hide Consistent, ReclaimExecution;
    StepKeeps(db, Reclaim(id));
  }

  lemma MarkKeeps(db: Db, id: Id)
    requires Consistent(db)
    ensures Consistent(Committed(db, MarkRunning(db, id)))
  {
    hide Consistent, MarkRunning;
    StepKeeps(db, Mark(id));
  }

  lemma FailureKeeps(db: Db, id: Id, errorCode: string, retryable: bool)
    requires Consistent(db)
    ensures Consistent(Committed(db, RecordFailure(db, id, errorCode, retryable)))
  {
    hide Consistent, RecordFailure;
    StepKeeps(db, Fail(id, errorCode, retryable));
  }

  lemma WorkflowFailureKeeps(db: Db, run: Id, errorCode: string, retryable: bool)
    requires Consistent(db)
    ensures Consistent(Committed(db, RecordWorkflowFailure(db, run, errorCode, retryable)))
  {
    hide Consistent, RecordWorkflowFailure;
    StepKeeps(db, FailWorkflow(run, errorCode, retryable));
  }

  lemma TransitionKeeps(db: Db, run: Id, t: Transition)
    requires Consistent(db)
    ensures Consistent(Committed(db, TransitionRun(db, run, t)))
  {
    hide Consistent, TransitionRun;
    StepKeeps(db, Move(run, t));
  }

  class Store {
    var db: Db

    ghost predicate Valid()
      reads this
    {
      Consistent(db)
    }

    constructor (members: set<Id>, orders: map<Id, Order>)
      ensures Valid() && Initial(db) && db.members == members && db.orders == orders
    {
      db := Db(members, orders, map[], map[], map[], map[], map[], map[], [], [], []);
      new;
      ReachableIsConsistent(db, []);
    }

    // ---- Steps inside a transaction ----------------------------------------------------

    /** _append_audit */
    method AppendAudit(entry: AuditEntry, detailsValid: bool) returns (outcome: Outcome<(), Error>)
      modifies this
      ensures Stepped(old(db), db, Audited(old(db), entry, detailsValid), outcome)
    {
      if !detailsValid {
        return Err(DataIntegrity);
      }
      if entry.proposal.Some? {
        if entry.proposal.value !in db.proposals || db.proposals[entry.proposal.value].run != entry.run {
          return Err(DataIntegrity);
        }
      }
      if entry.actor.User? && entry.actor.id !in db.members {
        return Err(ConstraintViolation);
      }
      if entry.run !in db.runs {
        return Err(ConstraintViolation);
      }
      db := db.(audit := db.audit + [entry]);
      return Ok(());
    }

    /** _transition_proposal, with the partial unique index that the update must respect */
    method TransitionProposal(proposal: Id, allowed: set<ProposalStatus>, status: ProposalStatus) returns (outcome: Outcome<(), Error>)
      modifies this
      ensures Stepped(old(db), db, MoveProposal(old(db), proposal, allowed, status), outcome)
    {
      if proposal !in db.proposals {
        return Err(ProposalNotFound);
      }
      if db.proposals[proposal].status !in allowed {
        return Err(RunStateConflict);
      }
      if IsActive(status) && ClashesWithActive(db, proposal) {
        return Err(ConstraintViolation);
      }
      db := db.(proposals := db.proposals[proposal := db.proposals[proposal].(status := status)]);
      return Ok(());
    }

    /** _transition_run_row */
    method TransitionRunRow(run: Id, allowed: set<RunStatus>, status: RunStatus, errorCode: Option<string>, retryable: bool)
      returns (outcome: Outcome<(), Error>)
      modifies this
      ensures Stepped(old(db), db, MoveRun(old(db), run, allowed, status, errorCode, retryable), outcome)
    {
      if run !in db.runs {
        return Err(RunNotFound);
      }
      if db.runs[run].status !in allowed {
        return Err(RunStateConflict);
      }
      var completed, lastError, lastRetryable := false, None, false;
      if status == Failed {
        lastError, lastRetryable := errorCode, retryable;
        if !retryable {
          completed := true;
        }
      } else if status == Succeeded || status == Cancelled {
        completed := true;
      }
      db := db.(runs := db.runs[run := db.runs[run].(
        status := status, errorCode := lastError, errorRetryable := lastRetryable, completed := completed)]);
      return Ok(());
    }

    /** Write a claimed row, move its proposal to executing, audit the claim. */
    method WriteClaim(id: Id, row: Execution, allowed: set<ProposalStatus>) returns (outcome: Outcome<Claim, Error>)
      modifies this
      ensures Settled(old(db), db, StoreClaim(old(db), id, row, allowed), outcome)
    {
      var before := db;
      db := db.(executions := db.executions[id := row]);
      var moved := TransitionProposal(row.proposal, allowed, Executing);
      if moved.Err? {
        db := before;
        return Err(moved.error);
      }
      if db.proposals[row.proposal].run !in db.runs {
        db := before;
        return Err(RunNotFound);
      }
      var audited := AppendAudit(
        AuditEntry(db.proposals[row.proposal].run, Some(row.proposal), System, ExecutionClaimed, ExecutionResource(id)), true);
      if audited.Err? {
        db := before;
        return Err(audited.error);
      }
      return Ok(Claim(id, row, true));
    }

    // ---- Write transactions --------------------------------------------------------------

    method CreateWorkflow(q: Request, ids: NewIds) returns (outcome: Outcome<NewIds, Error>)
      requires Valid()
      modifies this
      ensures Valid()
      ensures Settled(old(db), db, ActionTransactions.CreateWorkflow(old(db), q, ids), outcome)
    {
      hide Consistent;
      CreateKeeps(db, q, ids);
      var before := db;
      if q.amount <= 0 {
        return Err(InvalidAmount);
      }
      if !InputsValid(q.action, q.reason, q.reasonText, q.parameters) {
        return Err(ActionFailed);
      }
      if q.order !in db.orders {
        return Err(OrderNotFound);
      }
      if NormalizeCurrency(q.currency) != db.orders[q.order].currency {
        return Err(CurrencyMismatch);
      }
      var checked := CheckAmount(db, q.action, q.order, q.amount, q.reason, q.parameters);
      if checked.Err? {
        return Err(checked.error);
      }
      if OrderHasActive(db, q.order, q.action) || SameTurnRun(db, q.conversation, q.turn, q.action) {
        return Err(ActiveProposalExists);
      }
      var inserted := InsertWorkflow(q, ids);
      if !inserted {
        db := before;
        return Err(ActionFailed);
      }
      return Ok(ids);
    }

    /** The first two inserts of create_workflow; false is an integrity error. */
    method InsertRunAndProposal(q: Request, ids: NewIds) returns (inserted: bool)
      modifies this
      ensures inserted <==> ids.run !in old(db.runs) && ids.proposal !in old(db.proposals) && q.creator in old(db.members)
      ensures inserted ==>
                db == old(db).(runs := old(db.runs)[ids.run := NewRun(q, ids).(proposal := None)],
                               proposals := old(db.proposals)[ids.proposal := NewProposal(q, ids)])
    {
      if ids.run in db.runs || q.creator !in db.members {
        return false;
      }
      db := db.(runs := db.runs[ids.run := NewRun(q, ids).(proposal := None)]);
      if ids.proposal in db.proposals {
        return false;
      }
      db := db.(proposals := db.proposals[ids.proposal := NewProposal(q, ids)]);
      return true;
    }

    /** The inserts of create_workflow; false is an integrity error. */
    method InsertWorkflow(q: Request, ids: NewIds) returns (inserted: bool)
      modifies this
      ensures inserted <==> IdsFree(old(db), ids) && q.creator in old(db.members)
      ensures inserted ==> db == CreatedDb(old(db), q, ids, old(db.audit) + CreationEntries(q, ids))
    {
      hide NewProposal, FirstVersion, CreationEntries;
      inserted := InsertRunAndProposal(q, ids);
      if !inserted {
        return false;
      }
      if ids.version in db.versions {
        return false;
      }
      db := db.(versions := db.versions[ids.version := FirstVersion(q, ids)]);
      if ids.approval in db.approvals {
        return false;
      }
      db := db.(approvals := db.approvals[ids.approval := Approval(ids.proposal, ids.version, q.creator, Pending, false)]);
      db := db.(runs := db.runs[ids.run := db.runs[ids.run].(proposal := Some(ids.proposal))]);
      db := db.(audit := db.audit + CreationEntries(q, ids));
      return true;
    }

    /** _resolve_decided_version: the version row to insert, if the decision changes it. */
    method ResolveDecidedVersion(approval: Approval, verdict: Verdict) returns (resolved: Outcome<Option<Version>, Error>)
      requires approval.proposal in db.proposals && approval.requestedVersion in db.versions
      ensures resolved == ResolveVersion(db, approval, verdict)
    {
      var proposal, requested := db.proposals[approval.proposal], db.versions[approval.requestedVersion];
      if verdict.kind == ApproveChanged {
        if verdict.change.None? || verdict.change.value.amount <= 0 {
          return Err(InvalidChanges);
        }
        var change := verdict.change.value;
        var currency := NormalizeCurrency(change.currency);
        if currency != requested.currency {
          return Err(InvalidChanges);
        }
        if !InputsValid(proposal.action, change.reason, change.reasonText, change.parameters) || SameContent(change, requested) {
          return Err(InvalidChanges);
        }
        var checked := AsInvalidChange(CheckAmount(db, proposal.action, proposal.order, change.amount, change.reason, change.parameters));
        if checked.Err? {
          return Err(checked.error);
        }
        var max := MaxVersionNumber(approval.proposal);
        return Ok(Some(Version(approval.proposal, max + 1, change.amount, currency, change.reason, change.reasonText,
                               change.parameters, verdict.decider)));
      }
      if verdict.change.Some? {
        return Err(InvalidChanges);
      }
      if verdict.kind == Approve {
        if !InputsValid(proposal.action, requested.reason, requested.reasonText, requested.parameters) {
          return Err(InvalidChanges);
        }
        var checked := CheckAmount(db, proposal.action, proposal.order, requested.amount, requested.reason, requested.parameters);
        if checked.Err? {
          return Err(checked.error);
        }
      }
      return Ok(None);
    }

    /** SELECT COALESCE(MAX(version_no), 0) */
    method MaxVersionNumber(proposal: Id) returns (max: nat)
      ensures max == MaxNumber(VersionNumbers(db.versions, proposal))
    {
      var numbers := VersionNumbers(db.versions, proposal);
      ghost var expected := MaxNumber(numbers);
      if numbers == {} {
        return 0;
      }
      max :| max in numbers && forall n :: n in numbers ==> n <= max;
    }

    method DecideApproval(id: Id, verdict: Verdict, decisionId: Id, versionId: Id) returns (outcome: Outcome<DecisionReply, Error>)
      requires Valid()
      modifies this
      ensures Valid()
      ensures Settled(old(db), db, ActionTransactions.DecideApproval(old(db), id, verdict, decisionId, versionId), outcome)
    {
      hide Consistent, ResolveVersion;
      DecideKeeps(db, id, verdict, decisionId, versionId);
      var before := db;
      if id !in db.approvals {
        return Err(ApprovalNotFound);
      }
      var approval := db.approvals[id];
      if verdict.decider !in db.members {
        return Err(AdminRequired);
      }
      if id in db.decisions {
        var existing := db.decisions[id];
        if existing.decidedVersion !in db.versions {
          return Err(DataIntegrity);
        }
        if SameDecision(db, existing, verdict) {
          return Ok(DecisionReply(false, existing));
        }
        return Err(AlreadyDecided);
      }
      if approval.status != Pending || approval.requestedVersion !in db.versions {
        return Err(DataIntegrity);
      }
      if db.versions[approval.requestedVersion].proposal != approval.proposal {
        return Err(DataIntegrity);
      }
      if approval.proposal !in db.proposals {
        return Err(ProposalNotFound);
      }
      var resolved := ResolveDecidedVersion(approval, verdict);
      if resolved.Err? {
        return Err(resolved.error);
      }
      if resolved.value.Some? && versionId in db.versions {
        return Err(ConstraintViolation);
      }
      if DecisionIdTaken(db, decisionId) {
        return Err(AdminRequired);
      }
      if db.proposals[approval.proposal].run !in db.runs {
        return Err(ConstraintViolation);
      }
      var decided := if resolved.value.Some? then versionId else approval.requestedVersion;
      WriteDecision(id, verdict, decisionId, decided, resolved.value);
      return Ok(DecisionReply(true, db.decisions[id]));
    }

    /** The inserts and updates of a first decision. */
    method WriteDecision(id: Id, verdict: Verdict, decisionId: Id, decided: Id, inserted: Option<Version>)
      requires id in db.approvals && db.approvals[id].proposal in db.proposals
      modifies this
      ensures db == DecidedDb(old(db), id, verdict, decisionId, decided, inserted)
    {
      var approval := db.approvals[id];
      var run := db.proposals[approval.proposal].run;
      if inserted.Some? {
        db := db.(versions := db.versions[decided := inserted.value]);
      }
      db := db.(decisions := db.decisions[id := Decision(decisionId, verdict.kind, decided, verdict.decider, verdict.comment)]);
      db := db.(approvals := db.approvals[id := approval.(status := StatusAfter(verdict.kind), decided := true)]);
      db := db.(proposals := db.proposals[approval.proposal :=
        db.proposals[approval.proposal].(status := ProposalStatusAfter(verdict.kind), currentVersion := decided)]);
      db := db.(audit := db.audit
        + [AuditEntry(run, Some(approval.proposal), User(verdict.decider), DecisionRecorded, ApprovalResource(id))]);
      if verdict.kind == ApproveChanged {
        db := db.(audit := db.audit
          + [AuditEntry(run, Some(approval.proposal), User(verdict.decider), VersionCreated, VersionResource(decided))]);
      }
    }

    method ClaimExecution(proposal: Id, version: Id, action: ActionType, key: Key, newId: Id) returns (outcome: Outcome<Claim, Error>)
      requires Valid()
      modifies this
      ensures Valid()
      ensures Settled(old(db), db, ActionTransactions.ClaimExecution(old(db), proposal, version, action, key, newId), outcome)
    {
      hide Consistent, StoreClaim, ExecutionsAgree;
      ClaimKeeps(db, proposal, version, action, key, newId);
      ConsistentRows(db);
      if e :| e in db.executions && db.executions[e].key == key {
        OneByKey(db, e);
        var ex := db.executions[e];
        if !ChainMatches(ex, proposal, version, action) {
          return Err(DataIntegrity);
        }
        if ex.status == Done {
          return Ok(Claim(e, ex, false));
        }
        if ex.status == FailedTerminal {
          return Err(RunStateConflict);
        }
        if ex.status == FailedRetryable {
          outcome := WriteClaim(e, Reclaimed(ex), {Approved, Executing, ProposalFailed});
          return;
        }
        return Ok(Claim(e, ex, false));
      }
      if proposal !in db.proposals {
        return Err(ProposalNotFound);
      }
      if version !in db.versions || db.versions[version].proposal != proposal || db.proposals[proposal].action != action {
        return Err(DataIntegrity);
      }
      if newId in db.executions || exists e :: e in db.executions && db.executions[e].version == version {
        return Err(DataIntegrity);
      }
      var row := Execution(proposal, version, action, key, Claimed, 1, None, None, false, false);
      outcome := WriteClaim(newId, row, {Approved, Executing, ProposalFailed});
    }

    method ReclaimInterruptedExecution(id: Id) returns (outcome: Outcome<Claim, Error>)
      requires Valid()
      modifies this
      ensures Valid()
      ensures Settled(old(db), db, ReclaimExecution(old(db), id), outcome)
    {
      hide Consistent, StoreClaim;
      ReclaimKeeps(db, id);
      if id !in db.executions {
        return Err(DataIntegrity);
      }
      var ex := db.executions[id];
      if ex.status != Claimed && ex.status != InProgress {
        return Ok(Claim(id, ex, false));
      }
      outcome := WriteClaim(id, Reclaimed(ex), {Approved, Executing});
    }

    method MarkExecutionRunning(id: Id) returns (outcome: Outcome<Execution, Error>)
      requires Valid()
      modifies this
      ensures Valid()
      ensures Settled(old(db), db, MarkRunning(old(db), id), outcome)
    {
      hide Consistent;
      MarkKeeps(db, id);
      if id !in db.executions {
        return Err(DataIntegrity);
      }
      var ex := db.executions[id];
      if ex.status == Done || ex.status == InProgress {
        return Ok(ex);
      }
      if ex.status != Claimed {
        return Err(RunStateConflict);
      }
      db := db.(executions := db.executions[id := ex.(status := InProgress)]);
      return Ok(db.executions[id]);
    }

    method RecordExecutionSuccess(id: Id, s: Settlement) returns (outcome: Outcome<Success, Error>)
      requires Valid()
      modifies this
      ensures Valid()
      ensures Settled(old(db), db, RecordSuccess(old(db), id, s), outcome)
    {
      hide Consistent, ExecutionsAgree;
      SucceedKeeps(db, id, s);
      ConsistentRows(db);
      if !CouponArgumentFits(s) || id !in db.executions {
        return Err(DataIntegrity);
      }
      var ex := db.executions[id];
      if !ChainMatches(ex, s.proposal, s.version, s.action) {
        return Err(DataIntegrity);
      }
      if ex.status == Done {
        var records := RecordsOf(db, s.action);
        if i :| 0 <= i < |records| && records[i].execution == id {
          OneByExecution(records, i);
          return Ok(Success(id, records[i].id, ex.result.Some? && ex.result.value.orderRefunded));
        }
        return Err(DataIntegrity);
      }
      var checked := CheckSuccess(ex, s);
      if checked.Err? {
        return Err(checked.error);
      }
      outcome := WriteSuccess(id, s, checked.value);
    }

    /** The checks before the record is written; the value says whether nothing will be left. */
    method CheckSuccess(ex: Execution, s: Settlement) returns (checked: Outcome<bool, Error>)
      requires ChainMatches(ex, s.proposal, s.version, s.action)
      ensures checked == SuccessChecked(db, ex, s)
    {
      if ex.status != InProgress {
        return Err(RunStateConflict);
      }
      if s.proposal !in db.proposals {
        return Err(ProposalNotFound);
      }
      if s.version !in db.versions {
        return Err(DataIntegrity);
      }
      var proposal, version := db.proposals[s.proposal], db.versions[s.version];
      if version.proposal != s.proposal || proposal.order != s.order {
        return Err(DataIntegrity);
      }
      if version.amount != s.amount || version.currency != s.currency || version.reason != s.reason {
        return Err(DataIntegrity);
      }
      if s.order !in db.orders {
        return Err(OrderNotFound);
      }
      if s.currency != db.orders[s.order].currency {
        return Err(DataIntegrity);
      }
      if s.action == Refund {
        var refunded := SumFor(db.refunds, s.order);
        var remaining := db.orders[s.order].total - refunded;
        if s.amount > remaining {
          return Err(BalanceExceeded);
        }
        return Ok(s.amount == remaining);
      }
      if HasReason(db.compensations, s.order, s.reason) {
        return Err(CompensationDuplicate);
      }
      var compensated := SumFor(db.compensations, s.order);
      if compensated + s.amount > db.orders[s.order].total / 2 {
        return Err(CapExceeded);
      }
      return Ok(false);
    }

    /** The inserts and updates of a success. */
    method WriteSuccess(id: Id, s: Settlement, refunded: bool) returns (outcome: Outcome<Success, Error>)
      requires id in db.executions && db.executions[id].status == InProgress && CouponArgumentFits(s)
      requires ChainMatches(db.executions[id], s.proposal, s.version, s.action)
      requires SuccessChecked(db, db.executions[id], s) == Ok(refunded)
      modifies this
      ensures Settled(old(db), db, RecordSuccess(old(db), id, s), outcome)
    {
      hide CheckSettlement, HasRecordFor, RecordsOf, CouponArgumentFits;
      var before := db;
      var record := Record(s.record, s.order, s.proposal, s.version, id, s.amount, s.currency, s.reason);
      if HasRecordFor(RecordsOf(db, s.action), s.record, id, s.version) || db.proposals[s.proposal].action != s.action || s.amount <= 0 {
        return Err(DataIntegrity);
      }
      db := WithRecord(db, s.action, record);
      db := db.(executions := db.executions[id := SettledExecution(db.executions[id], s.record, refunded)]);
      var run := db.proposals[s.proposal].run;
      var moved := TransitionProposal(s.proposal, {Approved, Executing}, ProposalSucceeded);
      if moved.Err? {
        db := before;
        return Err(moved.error);
      }
      var ended := TransitionRunRow(run, {Running}, Succeeded, None, false);
      if ended.Err? {
        db := before;
        return Err(ended.error);
      }
      if refunded {
        db := db.(orders := db.orders[s.order := db.orders[s.order].(status := OrderStatus.Refunded)]);
      }
      db := db.(audit := db.audit + [
        AuditEntry(run, Some(s.proposal), System, ExecutionSucceeded, ExecutionResource(id)),
        AuditEntry(run, Some(s.proposal), System, RunSucceeded, RunResource(run))]);
      return Ok(Success(id, s.record, refunded));
    }

    /** Move the proposal and its run to failed; the caller rolls back. */
    method FailProposalAndRun(proposal: Id, run: Id, allowed: set<RunStatus>, errorCode: string, retryable: bool)
      returns (outcome: Outcome<(), Error>)
      modifies this
      ensures match EndFailed(old(db), proposal, run, allowed, errorCode, retryable)
              case Ok(ended) => db == ended && outcome == Ok(())
              case Err(error) => outcome == Err(error)
    {
      outcome := TransitionProposal(proposal, {Approved, Executing, ProposalFailed}, ProposalFailed);
      if outcome.Ok? {
        outcome := TransitionRunRow(run, allowed, Failed, Some(errorCode), retryable);
      }
    }

    method RecordExecutionFailure(id: Id, errorCode: string, retryable: bool) returns (outcome: Outcome<Execution, Error>)
      requires Valid()
      modifies this
      ensures Valid()
      ensures Settled(old(db), db, RecordFailure(old(db), id, errorCode, retryable), outcome)
    {
      hide Consistent, EndFailed, Audited;
      FailureKeeps(db, id, errorCode, retryable);
      var before := db;
      if id !in db.executions {
        return Err(DataIntegrity);
      }
      var ex := db.executions[id];
      if ex.status == Done || ex.status == FailedTerminal {
        return Ok(ex);
      }
      if ex.status != InProgress {
        return Err(RunStateConflict);
      }
      db := db.(executions := db.executions[id := FailedExecution(ex, errorCode, retryable)]);
      if ex.proposal !in db.proposals {
        db := before;
        return Err(ProposalNotFound);
      }
      var run := db.proposals[ex.proposal].run;
      var ended := FailProposalAndRun(ex.proposal, run, {Queued, Running, Awaiting, Failed}, errorCode, retryable);
      if ended.Err? {
        db := before;
        return Err(ended.error);
      }
      var noted := AppendAudit(AuditEntry(run, Some(ex.proposal), System, ExecutionFailed, ExecutionResource(id)), true);
      if noted.Err? {
        db := before;
        return Err(noted.error);
      }
      var audited := AppendAudit(AuditEntry(run, Some(ex.proposal), System, RunFailed, RunResource(run)), true);
      if audited.Err? {
        db := before;
        return Err(audited.error);
      }
      return Ok(FailedExecution(ex, errorCode, retryable));
    }

    method RecordWorkflowFailure(run: Id, errorCode: string, retryable: bool) returns (outcome: Outcome<(), Error>)
      requires Valid()
      modifies this
      ensures Valid()
      ensures Settled(old(db), db, ActionTransactions.RecordWorkflowFailure(old(db), run, errorCode, retryable), outcome)
    {
      hide Consistent, EndFailed, Audited;
      WorkflowFailureKeeps(db, run, errorCode, retryable);
      var before := db;
      if run !in db.runs {
        return Err(RunNotFound);
      }
      var row := db.runs[run];
      if row.status == Failed {
        return Ok(());
      }
      if row.status != Running {
        return Err(RunStateConflict);
      }
      if row.proposal.None? {
        return Err(DataIntegrity);
      }
      var proposal := row.proposal.value;
      if proposal !in db.proposals {
        return Err(ProposalNotFound);
      }
      if db.proposals[proposal].run != run {
        return Err(DataIntegrity);
      }
      var ended := FailProposalAndRun(proposal, run, {Running}, errorCode, retryable);
      if ended.Err? {
        db := before;
        return Err(ended.error);
      }
      var audited := AppendAudit(AuditEntry(run, Some(proposal), System, RunFailed, RunResource(run)), true);
      if audited.Err? {
        db := before;
        return Err(audited.error);
      }
      return Ok(());
    }

    method TransitionRun(run: Id, t: Transition) returns (outcome: Outcome<(), Error>)
      requires Valid()
      modifies this
      ensures Valid()
      ensures Settled(old(db), db, ActionTransactions.TransitionRun(old(db), run, t), outcome)
    {
      hide Consistent, MoveRun, Audited;
      TransitionKeeps(db, run, t);
      var before := db;
      if run !in db.runs {
        return Err(RunNotFound);
      }
      var row := db.runs[run];
      if row.status == Succeeded || row.status == Cancelled {
        return Err(RunStateConflict);
      }
      if row.status == Failed && !row.errorRetryable {
        return Err(RunStateConflict);
      }
      if row.status !in t.expected || t.status !in RunEdges(row.status) {
        return Err(RunStateConflict);
      }
      if t.status == Failed {
        if t.errorCode.None? || Blank(t.errorCode.value) {
          return Err(RunStateConflict);
        }
      } else if t.errorCode.Some? || t.retryable {
        return Err(RunStateConflict);
      }
      var moved := TransitionRunRow(run, {row.status}, t.status, t.errorCode, t.retryable);
      if moved.Err? {
        return Err(moved.error);
      }
      var audited := AppendAudit(AuditEntry(run, row.proposal, t.actor, t.event, RunResource(run)), t.detailsValid);
      if audited.Err? {
        db := before;
        return Err(audited.error);
      }
      return Ok(());
    }
  }

  /** The outcome of the checks of record_execution_success for an execution not yet done. */
  function SuccessChecked(db: Db, ex: Execution, s: Settlement): Outcome<bool, Error> {
    if ex.status != InProgress then Err(RunStateConflict)
    else if s.proposal !in db.proposals then Err(ProposalNotFound)
    else if s.version !in db.versions then Err(DataIntegrity)
    else
      var proposal, version := db.proposals[s.proposal], db.versions[s.version];
      if version.proposal != s.proposal || proposal.order != s.order then Err(DataIntegrity)
      else if version.amount != s.amount || version.currency != s.currency || version.reason != s.reason then Err(DataIntegrity)
      else if s.order !in db.orders then Err(OrderNotFound)
      else if s.currency != db.orders[s.order].currency then Err(DataIntegrity)
      else CheckSettlement(db, s)
  }

  function CreationEntries(q: Request, ids: NewIds): seq<AuditEntry> {
    [AuditEntry(ids.run, Some(ids.proposal), User(q.creator), RunCreated, RunResource(ids.run)),
     AuditEntry(ids.run, Some(ids.proposal), User(q.creator), VersionCreated, VersionResource(ids.version)),
     AuditEntry(ids.run, Some(ids.proposal), User(q.creator), ApprovalRequested, ApprovalResource(ids.approval))]
  }
}
