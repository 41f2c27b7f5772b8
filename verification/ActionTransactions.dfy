/** What each write transaction of the store does, as a function of the tables.

    Err means the transaction raised and was rolled back, so an Err carries no new
    tables.  Fresh uuid4 values are parameters; one that is already taken violates a
    primary key and is reported as the store reports it. */
module ActionTransactions {
  import opened Outcomes
  import opened Numbering
  import opened Text
  import opened ActionModel

  // ---- Queries -------------------------------------------------------------------

  ghost function ExecutionByKey(db: Db, key: Key): (found: Option<Id>)
    ensures found.Some? ==> found.value in db.executions && db.executions[found.value].key == key
    ensures found.None? ==> forall e :: e in db.executions ==> db.executions[e].key != key
  {
    if exists e :: e in db.executions && db.executions[e].key == key then
      var e :| e in db.executions && db.executions[e].key == key;
      Some(e)
    else
      None
  }

  ghost function ExecutionByVersion(db: Db, version: Id): (found: Option<Id>)
    ensures found.Some? ==> found.value in db.executions && db.executions[found.value].version == version
    ensures found.None? ==> forall e :: e in db.executions ==> db.executions[e].version != version
  {
    if exists e :: e in db.executions && db.executions[e].version == version then
      var e :| e in db.executions && db.executions[e].version == version;
      Some(e)
    else
      None
  }

  ghost function ApprovalByProposal(db: Db, proposal: Id): (found: Option<Id>)
    ensures found.Some? ==> found.value in db.approvals && db.approvals[found.value].proposal == proposal
    ensures found.None? ==> forall a :: a in db.approvals ==> db.approvals[a].proposal != proposal
  {
    if exists a :: a in db.approvals && db.approvals[a].proposal == proposal then
      var a :| a in db.approvals && db.approvals[a].proposal == proposal;
      Some(a)
    else
      None
  }

  predicate OrderHasActive(db: Db, order: Id, action: ActionType) {
    exists p :: p in db.proposals && db.proposals[p].order == order && db.proposals[p].action == action
                && IsActive(db.proposals[p].status)
  }

  /** Another active proposal of the same order and action: what the partial unique index refuses. */
  predicate ClashesWithActive(db: Db, proposal: Id)
    requires proposal in db.proposals
  {
    exists p :: p in db.proposals && p != proposal && db.proposals[p].order == db.proposals[proposal].order
                && db.proposals[p].action == db.proposals[proposal].action
                && IsActive(db.proposals[p].status)
  }

  predicate SameTurnRun(db: Db, conversation: Id, turn: Id, workflow: ActionType) {
    exists r :: r in db.runs && db.runs[r].conversation == conversation && db.runs[r].turn == turn
                && db.runs[r].workflow == workflow
  }

  predicate HasReason(records: seq<Record>, order: Id, reason: Reason) {
    exists i :: 0 <= i < |records| && records[i].order == order && records[i].reason == reason
  }

  predicate HasRecordFor(records: seq<Record>, id: Id, execution: Id, version: Id) {
    exists i :: 0 <= i < |records| &&
      (records[i].id == id || records[i].execution == execution || records[i].version == version)
  }

  ghost function RecordByExecution(records: seq<Record>, execution: Id): (found: Option<Id>)
    ensures found.Some? ==> exists i :: 0 <= i < |records| && records[i].execution == execution && records[i].id == found.value
    ensures found.None? ==> forall i :: 0 <= i < |records| ==> records[i].execution != execution
  {
    if exists i :: 0 <= i < |records| && records[i].execution == execution then
      var i :| 0 <= i < |records| && records[i].execution == execution;
      Some(records[i].id)
    else
      None
  }

  function VersionNumbers(versions: map<Id, Version>, proposal: Id): set<nat> {
    set v | v in versions && versions[v].proposal == proposal :: versions[v].number
  }

  predicate DecisionIdTaken(db: Db, id: Id) {
    exists a :: a in db.decisions && db.decisions[a].id == id
  }

  // ---- Row updates shared by the transactions -------------------------------------

  /** _append_audit: the proposal must belong to the run, a user actor must be a member. */
  function Audited(db: Db, entry: AuditEntry, detailsValid: bool): Outcome<Db, Error> {
    if !detailsValid then Err(DataIntegrity)
    else if entry.proposal.Some?
            && (entry.proposal.value !in db.proposals || db.proposals[entry.proposal.value].run != entry.run) then
      Err(DataIntegrity)
    else if entry.actor.User? && entry.actor.id !in db.members then Err(ConstraintViolation)
    else if entry.run !in db.runs then Err(ConstraintViolation)
    else Ok(db.(audit := db.audit + [entry]))
  }

  /** _transition_run_row: completed_at is set for success, cancellation and a failure
      that is not retryable, and cleared otherwise. */
  function RunMoved(run: Run, status: RunStatus, errorCode: Option<string>, retryable: bool): Run {
    run.(status := status,
         errorCode := if status.Failed? then errorCode else None,
         errorRetryable := status.Failed? && retryable,
         completed := status.Succeeded? || status.Cancelled? || (status.Failed? && !retryable))
  }

  function MoveRun(db: Db, run: Id, allowed: set<RunStatus>, status: RunStatus,
                   errorCode: Option<string>, retryable: bool): Outcome<Db, Error> {
    if run !in db.runs then Err(RunNotFound)
    else if db.runs[run].status !in allowed then Err(RunStateConflict)
    else Ok(db.(runs := db.runs[run := RunMoved(db.runs[run], status, errorCode, retryable)]))
  }

  function MoveProposal(db: Db, proposal: Id, allowed: set<ProposalStatus>, status: ProposalStatus): Outcome<Db, Error> {
    if proposal !in db.proposals then Err(ProposalNotFound)
    else if db.proposals[proposal].status !in allowed then Err(RunStateConflict)
    else if IsActive(status) && ClashesWithActive(db, proposal) then Err(ConstraintViolation)
    else Ok(db.(proposals := db.proposals[proposal := db.proposals[proposal].(status := status)]))
  }

  // ---- Money rules -----------------------------------------------------------------

  function CheckRefundAmount(db: Db, order: Id, amount: int, scope: Scope): Outcome<(), Error> {
    if order !in db.orders then Err(OrderNotFound)
    else if amount > Remaining(db, order) then Err(BalanceExceeded)
    else if scope.Full? && amount != Remaining(db, order) then Err(InvalidAmount)
    else Ok(())
  }

  function CheckCompensationAmount(db: Db, order: Id, amount: int, reason: Reason): Outcome<(), Error> {
    if order !in db.orders then Err(OrderNotFound)
    else if HasReason(db.compensations, order, reason) then Err(CompensationDuplicate)
    else if SumFor(db.compensations, order) + amount > db.orders[order].total / 2 then Err(CapExceeded)
    else Ok(())
  }

  function CheckAmount(db: Db, action: ActionType, order: Id, amount: int, reason: Reason, parameters: Parameters): Outcome<(), Error>
    requires ParametersFit(action, parameters)
  {
    match action
    case Refund => CheckRefundAmount(db, order, amount, parameters.scope)
    case Compensation => CheckCompensationAmount(db, order, amount, reason)
  }

  // ---- create_workflow ---------------------------------------------------------------

  datatype NewIds = NewIds(run: Id, proposal: Id, version: Id, approval: Id)

  datatype Request = Request(
    conversation: Id, turn: Id, creator: Id, order: Id, action: ActionType, amount: int, currency: string,
    reason: Reason, reasonText: string, parameters: Parameters)

  predicate IdsFree(db: Db, ids: NewIds) {
    ids.run !in db.runs && ids.proposal !in db.proposals && ids.version !in db.versions && ids.approval !in db.approvals
  }

  function NewRun(q: Request, ids: NewIds): Run {
    Run(q.conversation, q.turn, q.creator, q.action, Queued, Some(ids.proposal), None, false, false)
  }

  function NewProposal(q: Request, ids: NewIds): Proposal {
    Proposal(ids.run, q.order, q.action, AwaitingApproval, ids.version, q.creator)
  }

  function FirstVersion(q: Request, ids: NewIds): Version {
    Version(ids.proposal, 1, q.amount, NormalizeCurrency(q.currency), q.reason, q.reasonText, q.parameters, q.creator)
  }

  function CreateWorkflow(db: Db, q: Request, ids: NewIds): Transaction<NewIds> {
    if q.amount <= 0 then Err(InvalidAmount)
    else if !InputsValid(q.action, q.reason, q.reasonText, q.parameters) then Err(ActionFailed)
    else if q.order !in db.orders then Err(OrderNotFound)
    else if NormalizeCurrency(q.currency) != db.orders[q.order].currency then Err(CurrencyMismatch)
    else
      var _ :- CheckAmount(db, q.action, q.order, q.amount, q.reason, q.parameters);
      if OrderHasActive(db, q.order, q.action) then Err(ActiveProposalExists)
      else if SameTurnRun(db, q.conversation, q.turn, q.action) then Err(ActiveProposalExists)
      else if !IdsFree(db, ids) || q.creator !in db.members then Err(ActionFailed)
      else
        var created := db.(
          runs := db.runs[ids.run := NewRun(q, ids)],
          proposals := db.proposals[ids.proposal := NewProposal(q, ids)],
          versions := db.versions[ids.version := FirstVersion(q, ids)],
          approvals := db.approvals[ids.approval := Approval(ids.proposal, ids.version, q.creator, Pending, false)],
          audit := db.audit + [
            AuditEntry(ids.run, Some(ids.proposal), User(q.creator), RunCreated, RunResource(ids.run)),
            AuditEntry(ids.run, Some(ids.proposal), User(q.creator), VersionCreated, VersionResource(ids.version)),
            AuditEntry(ids.run, Some(ids.proposal), User(q.creator), ApprovalRequested, ApprovalResource(ids.approval))]);
        Ok((created, ids))
  }

  // ---- decide_approval ---------------------------------------------------------------

  datatype Verdict = Verdict(decider: Id, kind: DecisionKind, comment: Option<string>, change: Option<NewVersion>)

  datatype DecisionReply = DecisionReply(created: bool, decision: Decision)

  /** The content of a version as a changed approval would have to submit it. */
  predicate SameContent(change: NewVersion, version: Version) {
    && change.amount == version.amount
    && NormalizeCurrency(change.currency) == version.currency
    && change.reason == version.reason
    && change.reasonText == version.reasonText
    && change.parameters == version.parameters
  }

  /** _is_same_decision: the decider is not compared. */
  predicate SameDecision(db: Db, existing: Decision, verdict: Verdict)
    requires existing.decidedVersion in db.versions
  {
    && existing.kind == verdict.kind
    && existing.comment == verdict.comment
    && match verdict.change
       case None => !verdict.kind.ApproveChanged?
       case Some(change) => verdict.kind.ApproveChanged? && SameContent(change, db.versions[existing.decidedVersion])
  }

  function AsInvalidChange<T>(checked: Outcome<T, Error>): Outcome<T, Error> {
    if checked.Err? && checked.error in {InvalidAmount, BalanceExceeded, CompensationDuplicate, CapExceeded}
    then Err(InvalidChanges) else checked
  }

  /** _resolve_decided_version without the insert: Some(row) is the next version to insert. */
  ghost function ResolveVersion(db: Db, approval: Approval, verdict: Verdict): Outcome<Option<Version>, Error>
    requires approval.proposal in db.proposals && approval.requestedVersion in db.versions
  {
    var proposal := db.proposals[approval.proposal];
    var requested := db.versions[approval.requestedVersion];
    match verdict.kind
    case ApproveChanged =>
      (match verdict.change
       case None => Err(InvalidChanges)
       case Some(change) =>
         if change.amount <= 0 then Err(InvalidChanges)
         else if NormalizeCurrency(change.currency) != requested.currency then Err(InvalidChanges)
         else if !InputsValid(proposal.action, change.reason, change.reasonText, change.parameters) then Err(InvalidChanges)
         else if SameContent(change, requested) then Err(InvalidChanges)
         else
           var _ :- AsInvalidChange(CheckAmount(db, proposal.action, proposal.order, change.amount, change.reason, change.parameters));
           Ok(Some(Version(approval.proposal, MaxNumber(VersionNumbers(db.versions, approval.proposal)) + 1, change.amount,
                           NormalizeCurrency(change.currency), change.reason, change.reasonText, change.parameters,
                           verdict.decider))))
    case Approve =>
      if verdict.change.Some? then Err(InvalidChanges)
      else if !InputsValid(proposal.action, requested.reason, requested.reasonText, requested.parameters) then Err(InvalidChanges)
      else
        var _ :- CheckAmount(db, proposal.action, proposal.order, requested.amount, requested.reason, requested.parameters);
        Ok(None)
    case Reject =>
      if verdict.change.Some? then Err(InvalidChanges) else Ok(None)
  }

  function StatusAfter(kind: DecisionKind): ApprovalStatus {
    match kind
    case Approve => ApprovedAsIs
    case ApproveChanged => ApprovedWithChanges
    case Reject => RejectedApproval
  }

  function ProposalStatusAfter(kind: DecisionKind): ProposalStatus {
    if kind.Reject? then Rejected else Approved
  }

  function DecidedDb(db: Db, id: Id, verdict: Verdict, decisionId: Id, decided: Id, inserted: Option<Version>): Db
    requires id in db.approvals && db.approvals[id].proposal in db.proposals
  {
    var approval := db.approvals[id];
    var proposal := db.proposals[approval.proposal];
    db.(
      versions := if inserted.Some? then db.versions[decided := inserted.value] else db.versions,
      decisions := db.decisions[id := Decision(decisionId, verdict.kind, decided, verdict.decider, verdict.comment)],
      approvals := db.approvals[id := approval.(status := StatusAfter(verdict.kind), decided := true)],
      proposals := db.proposals[approval.proposal :=
        proposal.(status := ProposalStatusAfter(verdict.kind), currentVersion := decided)],
      audit := db.audit
        + [AuditEntry(proposal.run, Some(approval.proposal), User(verdict.decider), DecisionRecorded, ApprovalResource(id))]
        + if verdict.kind.ApproveChanged?
          then [AuditEntry(proposal.run, Some(approval.proposal), User(verdict.decider), VersionCreated, VersionResource(decided))]
          else [])
  }

  ghost function DecideApproval(db: Db, id: Id, verdict: Verdict, decisionId: Id, versionId: Id): Transaction<DecisionReply> {
    if id !in db.approvals then Err(ApprovalNotFound)
    else if verdict.decider !in db.members then Err(AdminRequired)
    else if id in db.decisions then
      var existing := db.decisions[id];
      if existing.decidedVersion !in db.versions then Err(DataIntegrity)
      else if SameDecision(db, existing, verdict) then Ok((db, DecisionReply(false, existing)))
      else Err(AlreadyDecided)
    else
      var approval := db.approvals[id];
      if approval.status != Pending then Err(DataIntegrity)
      else if approval.requestedVersion !in db.versions then Err(DataIntegrity)
      else if db.versions[approval.requestedVersion].proposal != approval.proposal then Err(DataIntegrity)
      else if approval.proposal !in db.proposals then Err(ProposalNotFound)
      else
        var inserted :- ResolveVersion(db, approval, verdict);
        if inserted.Some? && versionId in db.versions then Err(ConstraintViolation)
        else if DecisionIdTaken(db, decisionId) then Err(AdminRequired)
        else if db.proposals[approval.proposal].run !in db.runs then Err(ConstraintViolation)
        else
          var decided := if inserted.Some? then versionId else approval.requestedVersion;
          Ok((DecidedDb(db, id, verdict, decisionId, decided, inserted),
              DecisionReply(true, Decision(decisionId, verdict.kind, decided, verdict.decider, verdict.comment))))
  }

  // ---- Execution claims ---------------------------------------------------------------

  datatype Claim = Claim(id: Id, row: Execution, acquired: bool)

  function Reclaimed(ex: Execution): Execution {
    ex.(status := Claimed, attempts := ex.attempts + 1, errorCode := None, errorRetryable := false, completed := false)
  }

  predicate ChainMatches(ex: Execution, proposal: Id, version: Id, action: ActionType) {
    ex.proposal == proposal && ex.version == version && ex.action == action
  }

  /** _append_execution_claim_audit */
  function ClaimAudited(db: Db, proposal: Id, execution: Id): Outcome<Db, Error> {
    if proposal !in db.proposals then Err(ProposalNotFound)
    else if db.proposals[proposal].run !in db.runs then Err(RunNotFound)
    else Audited(db, AuditEntry(db.proposals[proposal].run, Some(proposal), System, ExecutionClaimed, ExecutionResource(execution)), true)
  }

  /** Write the claimed row, move the proposal to executing and audit the claim. */
  function StoreClaim(db: Db, id: Id, row: Execution, allowed: set<ProposalStatus>): Transaction<Claim> {
    var written := db.(executions := db.executions[id := row]);
    var moved :- MoveProposal(written, row.proposal, allowed, Executing);
    var audited :- ClaimAudited(moved, row.proposal, id);
    Ok((audited, Claim(id, row, true)))
  }

  ghost function ClaimExecution(db: Db, proposal: Id, version: Id, action: ActionType, key: Key, newId: Id): Transaction<Claim> {
    match ExecutionByKey(db, key)
    case Some(id) =>
      var ex := db.executions[id];
      if !ChainMatches(ex, proposal, version, action) then Err(DataIntegrity)
      else (
        match ex.status
        case Done => Ok((db, Claim(id, ex, false)))
        case FailedTerminal => Err(RunStateConflict)
        case FailedRetryable => StoreClaim(db, id, Reclaimed(ex), {Approved, Executing, ProposalFailed})
        case Claimed => Ok((db, Claim(id, ex, false)))
        case InProgress => Ok((db, Claim(id, ex, false))))
    case None =>
      if proposal !in db.proposals then Err(ProposalNotFound)
      else if version !in db.versions then Err(DataIntegrity)
      else if db.versions[version].proposal != proposal then Err(DataIntegrity)
      else if db.proposals[proposal].action != action then Err(DataIntegrity)
      else if newId in db.executions || ExecutionByVersion(db, version).Some? then Err(DataIntegrity)
      else
        var row := Execution(proposal, version, action, key, Claimed, 1, None, None, false, false);
        StoreClaim(db, newId, row, {Approved, Executing, ProposalFailed})
  }

  function ReclaimExecution(db: Db, id: Id): Transaction<Claim> {
    if id !in db.executions then Err(DataIntegrity)
    else
      var ex := db.executions[id];
      if ex.status != Claimed && ex.status != InProgress then Ok((db, Claim(id, ex, false)))
      else StoreClaim(db, id, Reclaimed(ex), {Approved, Executing})
  }

  function MarkRunning(db: Db, id: Id): Transaction<Execution> {
    if id !in db.executions then Err(DataIntegrity)
    else
      var ex := db.executions[id];
      if ex.status == Done || ex.status == InProgress then Ok((db, ex))
      else if ex.status != Claimed then Err(RunStateConflict)
      else
        var row := ex.(status := InProgress);
        Ok((db.(executions := db.executions[id := row]), row))
  }

  // ---- record_execution_success -----------------------------------------------------------

  datatype Settlement = Settlement(
    proposal: Id, version: Id, order: Id, action: ActionType, amount: int, currency: string, reason: Reason,
    record: Id, couponDays: Option<int>)

  datatype Success = Success(execution: Id, record: Id, orderRefunded: bool)

  function CheckSettlement(db: Db, s: Settlement): (checked: Outcome<bool, Error>)
    requires s.order in db.orders
  {
    match s.action
    case Refund =>
      if s.amount > Remaining(db, s.order) then Err(BalanceExceeded)
      else Ok(s.amount == Remaining(db, s.order))
    case Compensation =>
      var _ :- CheckCompensationAmount(db, s.order, s.amount, s.reason);
      Ok(false)
  }

  function WithRecord(db: Db, action: ActionType, record: Record): Db {
    match action
    case Refund => db.(refunds := db.refunds + [record])
    case Compensation => db.(compensations := db.compensations + [record])
  }

  function SettledExecution(ex: Execution, record: Id, refunded: bool): Execution {
    ex.(status := Done, result := Some(ExecutionResult(record, refunded)), errorCode := None, errorRetryable := false,
        completed := true)
  }

  /** The tables once every check has passed. */
  function SettledDb(db: Db, id: Id, s: Settlement, refunded: bool): Db
    requires id in db.executions && s.proposal in db.proposals && db.proposals[s.proposal].run in db.runs && s.order in db.orders
  {
    var run := db.proposals[s.proposal].run;
    WithRecord(db, s.action, Record(s.record, s.order, s.proposal, s.version, id, s.amount, s.currency, s.reason)).(
      executions := db.executions[id := SettledExecution(db.executions[id], s.record, refunded)],
      proposals := db.proposals[s.proposal := db.proposals[s.proposal].(status := ProposalSucceeded)],
      runs := db.runs[run := RunMoved(db.runs[run], Succeeded, None, false)],
      orders := if refunded then db.orders[s.order := db.orders[s.order].(status := OrderStatus.Refunded)] else db.orders,
      audit := db.audit + [
        AuditEntry(run, Some(s.proposal), System, ExecutionSucceeded, ExecutionResource(id)),
        AuditEntry(run, Some(s.proposal), System, RunSucceeded, RunResource(run))])
  }

  predicate CouponArgumentFits(s: Settlement) {
    match s.action
    case Refund => s.couponDays.None?
    case Compensation => s.couponDays == Some(COUPON_VALID_DAYS)
  }

  ghost function RecordSuccess(db: Db, id: Id, s: Settlement): Transaction<Success> {
    if !CouponArgumentFits(s) then Err(DataIntegrity)
    else if id !in db.executions then Err(DataIntegrity)
    else
      var ex := db.executions[id];
      if !ChainMatches(ex, s.proposal, s.version, s.action) then Err(DataIntegrity)
      else if ex.status == Done then (
        match RecordByExecution(RecordsOf(db, s.action), id)
        case None => Err(DataIntegrity)
        case Some(record) => Ok((db, Success(id, record, ex.result.Some? && ex.result.value.orderRefunded))))
      else if ex.status != InProgress then Err(RunStateConflict)
      else if s.proposal !in db.proposals then Err(ProposalNotFound)
      else if s.version !in db.versions then Err(DataIntegrity)
      else
        var proposal, version := db.proposals[s.proposal], db.versions[s.version];
        if version.proposal != s.proposal || proposal.order != s.order then Err(DataIntegrity)
        else if version.amount != s.amount || version.currency != s.currency || version.reason != s.reason then Err(DataIntegrity)
        else if s.order !in db.orders then Err(OrderNotFound)
        else if s.currency != db.orders[s.order].currency then Err(DataIntegrity)
        else
          var refunded :- CheckSettlement(db, s);
          if HasRecordFor(RecordsOf(db, s.action), s.record, id, s.version) then Err(DataIntegrity)
          else if proposal.action != s.action || s.amount <= 0 then Err(DataIntegrity)
          else if proposal.status !in {Approved, Executing} then Err(RunStateConflict)
          else if proposal.run !in db.runs then Err(RunNotFound)
          else if db.runs[proposal.run].status != Running then Err(RunStateConflict)
          else Ok((SettledDb(db, id, s, refunded), Success(id, s.record, refunded)))
  }

  // ---- Failures ------------------------------------------------------------------------------

  function FailedExecution(ex: Execution, errorCode: string, retryable: bool): Execution {
    ex.(status := if retryable then FailedRetryable else FailedTerminal, errorCode := Some(errorCode),
        errorRetryable := retryable, completed := !retryable)
  }

  /** Move the proposal and its run to failed. */
  function EndFailed(db: Db, proposal: Id, run: Id, allowed: set<RunStatus>, errorCode: string, retryable: bool): Outcome<Db, Error> {
    var moved :- MoveProposal(db, proposal, {Approved, Executing, ProposalFailed}, ProposalFailed);
    MoveRun(moved, run, allowed, Failed, Some(errorCode), retryable)
  }

  function FailureAudited(db: Db, proposal: Id, run: Id, execution: Id): Outcome<Db, Error> {
    var noted :- Audited(db, AuditEntry(run, Some(proposal), System, ExecutionFailed, ExecutionResource(execution)), true);
    Audited(noted, AuditEntry(run, Some(proposal), System, RunFailed, RunResource(run)), true)
  }

  function RecordFailure(db: Db, id: Id, errorCode: string, retryable: bool): Transaction<Execution> {
    if id !in db.executions then Err(DataIntegrity)
    else
      var ex := db.executions[id];
      if ex.status == Done || ex.status == FailedTerminal then Ok((db, ex))
      else if ex.status != InProgress then Err(RunStateConflict)
      else if ex.proposal !in db.proposals then Err(ProposalNotFound)
      else
        var run := db.proposals[ex.proposal].run;
        var row := FailedExecution(ex, errorCode, retryable);
        var written := db.(executions := db.executions[id := row]);
        var ended :- EndFailed(written, ex.proposal, run, {Queued, Running, Awaiting, Failed}, errorCode, retryable);
        var audited :- FailureAudited(ended, ex.proposal, run, id);
        Ok((audited, row))
  }

  function RecordWorkflowFailure(db: Db, run: Id, errorCode: string, retryable: bool): Transaction<()> {
    if run !in db.runs then Err(RunNotFound)
    else
      var row := db.runs[run];
      if row.status == Failed then Ok((db, ()))
      else if row.status != Running then Err(RunStateConflict)
      else if row.proposal.None? then Err(DataIntegrity)
      else if row.proposal.value !in db.proposals then Err(ProposalNotFound)
      else if db.proposals[row.proposal.value].run != run then Err(DataIntegrity)
      else
        var ended :- EndFailed(db, row.proposal.value, run, {Running}, errorCode, retryable);
        var audited :- Audited(ended, AuditEntry(run, row.proposal, System, RunFailed, RunResource(run)), true);
        Ok((audited, ()))
  }

  // ---- transition_run and append_audit_log ------------------------------------------------------

  function RunEdges(status: RunStatus): set<RunStatus> {
    match status
    case Queued => {Running, Failed}
    case Running => {Awaiting, Succeeded, Failed, Cancelled}
    case Awaiting => {Running, Failed}
    case Failed => {Running}
    case Succeeded => {}
    case Cancelled => {}
  }

  datatype Transition = Transition(
    expected: set<RunStatus>, status: RunStatus, errorCode: Option<string>, retryable: bool, actor: Actor, event: Event,
    detailsValid: bool)

  function TransitionRun(db: Db, run: Id, t: Transition): Transaction<()> {
    if run !in db.runs then Err(RunNotFound)
    else
      var row := db.runs[run];
      if row.status == Succeeded || row.status == Cancelled then Err(RunStateConflict)
      else if row.status == Failed && !row.errorRetryable then Err(RunStateConflict)
      else if row.status !in t.expected then Err(RunStateConflict)
      else if t.status !in RunEdges(row.status) then Err(RunStateConflict)
      else if t.status == Failed && (t.errorCode.None? || Blank(t.errorCode.value)) then Err(RunStateConflict)
      else if t.status != Failed && (t.errorCode.Some? || t.retryable) then Err(RunStateConflict)
      else
        var moved :- MoveRun(db, run, {row.status}, t.status, t.errorCode, t.retryable);
        var audited :- Audited(moved, AuditEntry(run, row.proposal, t.actor, t.event, RunResource(run)), t.detailsValid);
        Ok((audited, ()))
  }

  function AppendAuditLog(db: Db, entry: AuditEntry, detailsValid: bool): Transaction<()> {
    if entry.run !in db.runs then Err(RunNotFound)
    else if entry.proposal.Some? && entry.proposal.value !in db.proposals then Err(ProposalNotFound)
    else
      var audited :- Audited(db, entry, detailsValid);
      Ok((audited, ()))
  }
}
