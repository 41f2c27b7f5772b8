/** When each transaction of the store goes through and what it leaves in every table, in terms of
    rows and sums alone. */
module ActionMeaning {
  import opened Outcomes
  import opened Numbering
  import opened Text
  import opened ActionModel
  import opened ActionTransactions
  import opened ActionInvariants
  import opened ActionPromises

  // ---- Currency ------------------------------------------------------------------------------

  predicate IsLower(c: char) {
    'a' <= c <= 'z'
  }

  /** The text between the white space, if there is any, without lower case letters. */
  lemma {:induction false} CurrencyIsNormalised(before: string, text: string, after: string)
    requires AllSpace(before) && AllSpace(after) && text != "" && !IsSpace(text[0]) && !IsSpace(text[|text| - 1])
    ensures var normal := NormalizeCurrency(before + text + after);
            && |normal| == |text|
            && forall i :: 0 <= i < |text| ==> normal[i] == if IsLower(text[i]) then (text[i] as int - 'a' as int + 'A' as int) as char else text[i]
  {
    StripLeftOf(before, text + after);
    assert before + text + after == before + (text + after);
    StripRightOf(text, after);
  }

  lemma {:induction false} StripLeftOf(before: string, rest: string)
    requires AllSpace(before) && rest != "" && !IsSpace(rest[0])
    ensures StripLeft(before + rest) == rest
  {
    if before == "" {
      assert before + rest == rest;
    } else {
      assert (before + rest)[1..] == before[1..] + rest;
      StripLeftOf(before[1..], rest);
    }
  }

  lemma {:induction false} StripRightOf(rest: string, after: string)
    requires AllSpace(after) && rest != "" && !IsSpace(rest[|rest| - 1])
    ensures StripRight(rest + after) == rest
  {
    if after == "" {
      assert rest + after == rest;
    } else {
      assert (rest + after)[..|rest + after| - 1] == rest + after[..|after| - 1];
      StripRightOf(rest, after[..|after| - 1]);
    }
  }

  // ---- What a request must satisfy --------------------------------------------------------------

  const REFUND_REASONS := {
    CustomerCancellation, ChangedMindReturn, QualityIssue, DamagedItem, WrongItem, MissingItem, NotAsDescribed, OutOfStock,
    DeliveryDelay, LostInTransit, OtherReason}

  const COMPENSATION_REASONS := {DelayedShipment, TransitDelay, CustomerDispute, OtherReason}

  /** A reason of the action, explained if it is "other", with the parameters of the action. */
  predicate IsSound(action: ActionType, reason: Reason, text: string, parameters: Parameters) {
    && (match action
        case Refund => reason in REFUND_REASONS && parameters.RefundParameters?
        case Compensation => reason in COMPENSATION_REASONS && parameters.CouponParameters? && parameters.days == 30)
    && (reason == OtherReason ==> exists i :: 0 <= i < |text| && !IsSpace(text[i]))
  }

  /** A refund of at most what is left, and of exactly that if it is full; a compensation for a
      reason not yet compensated, within half of the total. */
  predicate IsAffordable(db: Db, action: ActionType, order: Id, amount: int, reason: Reason, parameters: Parameters)
    requires order in db.orders
  {
    match action
    case Refund =>
      var left := db.orders[order].total - SumFor(db.refunds, order);
      amount <= left && (parameters.RefundParameters? && parameters.scope == Full ==> amount == left)
    case Compensation =>
      && (forall i :: 0 <= i < |db.compensations| && db.compensations[i].order == order ==> db.compensations[i].reason != reason)
      && SumFor(db.compensations, order) + amount <= db.orders[order].total / 2
  }

  /** Why an amount is not affordable. */
  function MoneyError(db: Db, action: ActionType, order: Id, amount: int, reason: Reason): Error
    requires order in db.orders
  {
    match action
    case Refund => if amount > db.orders[order].total - SumFor(db.refunds, order) then BalanceExceeded else InvalidAmount
    case Compensation =>
      if exists i :: 0 <= i < |db.compensations| && db.compensations[i].order == order && db.compensations[i].reason == reason
      then CompensationDuplicate else CapExceeded
  }

  /** No active proposal for the order and action, and no run of the same turn. */
  predicate IsFirst(db: Db, q: Request) {
    && (forall p :: p in db.proposals && db.proposals[p].order == q.order && db.proposals[p].action == q.action ==>
          db.proposals[p].status !in {AwaitingApproval, Approved, Executing})
    && (forall r :: r in db.runs && db.runs[r].conversation == q.conversation && db.runs[r].turn == q.turn ==>
          db.runs[r].workflow != q.action)
  }

  lemma SoundIsValid(action: ActionType, reason: Reason, text: string, parameters: Parameters)
    ensures InputsValid(action, reason, text, parameters) <==> IsSound(action, reason, text, parameters)
  {
  }

  lemma AffordableIsChecked(db: Db, action: ActionType, order: Id, amount: int, reason: Reason, text: string, parameters: Parameters)
    requires order in db.orders && IsSound(action, reason, text, parameters)
    ensures ParametersFit(action, parameters)
    ensures CheckAmount(db, action, order, amount, reason, parameters)
         == if IsAffordable(db, action, order, amount, reason, parameters) then Ok(()) else Err(MoneyError(db, action, order, amount, reason))
  {
    hide SumFor;
  }

  // ---- create_workflow -----------------------------------------------------------------------------

  /** A workflow is created exactly under these conditions; each of them that fails first has its
      error. */
  lemma CreatedIff(db: Db, q: Request, ids: NewIds)
    ensures var created := CreateWorkflow(db, q, ids);
            if q.amount <= 0 then created == Err(InvalidAmount)
            else if !IsSound(q.action, q.reason, q.reasonText, q.parameters) then created == Err(ActionFailed)
            else if q.order !in db.orders then created == Err(OrderNotFound)
            else if NormalizeCurrency(q.currency) != db.orders[q.order].currency then created == Err(CurrencyMismatch)
            else if !IsAffordable(db, q.action, q.order, q.amount, q.reason, q.parameters) then
              created == Err(MoneyError(db, q.action, q.order, q.amount, q.reason))
            else if !IsFirst(db, q) then created == Err(ActiveProposalExists)
            else
              created.Ok? <==> && q.creator in db.members
                               && ids.run !in db.runs && ids.proposal !in db.proposals && ids.version !in db.versions && ids.approval !in db.approvals
  {
    hide InputsValid, CheckAmount, IsSound, IsAffordable, MoneyError, NormalizeCurrency, FirstVersion;
    SoundIsValid(q.action, q.reason, q.reasonText, q.parameters);
    if q.order in db.orders && IsSound(q.action, q.reason, q.reasonText, q.parameters) {
      AffordableIsChecked(db, q.action, q.order, q.amount, q.reason, q.reasonText, q.parameters);
    }
  }

  /** What a created workflow writes: one row each, with the content of the request, and three
      audit entries. */
  lemma CreatedRows(db: Db, q: Request, ids: NewIds)
    requires CreateWorkflow(db, q, ids).Ok?
    ensures CreateWorkflow(db, q, ids).value.1 == ids
    ensures CreateWorkflow(db, q, ids).value.0 == db.(
              runs := db.runs[ids.run := Run(q.conversation, q.turn, q.creator, q.action, Queued, Some(ids.proposal), None, false, false)],
              proposals := db.proposals[ids.proposal := Proposal(ids.run, q.order, q.action, AwaitingApproval, ids.version, q.creator)],
              versions := db.versions[ids.version := Version(ids.proposal, 1, q.amount, NormalizeCurrency(q.currency), q.reason, q.reasonText,
                                                             q.parameters, q.creator)],
              approvals := db.approvals[ids.approval := Approval(ids.proposal, ids.version, q.creator, Pending, false)],
              audit := db.audit + [
                AuditEntry(ids.run, Some(ids.proposal), User(q.creator), RunCreated, RunResource(ids.run)),
                AuditEntry(ids.run, Some(ids.proposal), User(q.creator), VersionCreated, VersionResource(ids.version)),
                AuditEntry(ids.run, Some(ids.proposal), User(q.creator), ApprovalRequested, ApprovalResource(ids.approval))])
  {
    hide InputsValid, CheckAmount, NormalizeCurrency;
  }

  // ---- decide_approval --------------------------------------------------------------------------------

  /** The proposal and the requested version of an approval. */
  ghost predicate IsRequest(db: Db, id: Id) {
    && id in db.approvals && db.approvals[id].proposal in db.proposals && db.approvals[id].requestedVersion in db.versions
    && db.proposals[db.approvals[id].proposal].order in db.orders
    && db.versions[db.approvals[id].requestedVersion].proposal == db.approvals[id].proposal
    && db.proposals[db.approvals[id].proposal].run in db.runs
    && (id !in db.decisions ==> db.approvals[id].status == Pending)
    && db.versions[db.approvals[id].requestedVersion].currency == db.orders[db.proposals[db.approvals[id].proposal].order].currency
  }

  lemma ReachableRequest(db: Db, id: Id)
    requires Reachable(db) && id in db.approvals
    ensures IsRequest(db, id)
  {
    hide Reachable, Consistent, OneApproval, Numbered, ExecutionsAgree, RunsAgree, SuccessesExecuted, RecordsAgree, MoneyBounded,
         OneActive, FullCoversRemaining;
    ReachableConsistent(db);
    Parts(db);
    assert ApprovalAgrees(db, id);
    assert VersionFits(db, db.approvals[id].requestedVersion);
  }

  /** The content of a change differs from that of a version. */
  predicate Differs(change: NewVersion, version: Version) {
    || change.amount != version.amount || NormalizeCurrency(change.currency) != version.currency || change.reason != version.reason
    || change.reasonText != version.reasonText || change.parameters != version.parameters
  }

  /** The first decision of an approval goes through exactly under these conditions, on the version
      that it decides: a changed one if it changes the request, the requested one otherwise. */
  lemma FirstDecidedIff(db: Db, id: Id, verdict: Verdict, decisionId: Id, versionId: Id)
    requires Reachable(db) && id in db.approvals && id !in db.decisions
    ensures IsRequest(db, id)
    ensures var (proposal, requested) := (db.proposals[db.approvals[id].proposal], db.versions[db.approvals[id].requestedVersion]);
            var decided := DecideApproval(db, id, verdict, decisionId, versionId);
            if verdict.decider !in db.members then decided == Err(AdminRequired)
            else if verdict.kind == ApproveChanged then (
              match verdict.change
              case None => decided == Err(InvalidChanges)
              case Some(change) =>
                if change.amount <= 0 || NormalizeCurrency(change.currency) != requested.currency || !Differs(change, requested)
                   || !IsSound(proposal.action, change.reason, change.reasonText, change.parameters)
                   || !IsAffordable(db, proposal.action, proposal.order, change.amount, change.reason, change.parameters)
                then decided == Err(InvalidChanges)
                else if versionId in db.versions then decided == Err(ConstraintViolation)
                else decided.Ok? <==> forall a :: a in db.decisions ==> db.decisions[a].id != decisionId)
            else if verdict.change.Some? then decided == Err(InvalidChanges)
            else if verdict.kind == Approve && !IsSound(proposal.action, requested.reason, requested.reasonText, requested.parameters) then
              decided == Err(InvalidChanges)
            else if verdict.kind == Approve
                    && !IsAffordable(db, proposal.action, proposal.order, requested.amount, requested.reason, requested.parameters) then
              decided == Err(MoneyError(db, proposal.action, proposal.order, requested.amount, requested.reason))
            else decided.Ok? <==> forall a :: a in db.decisions ==> db.decisions[a].id != decisionId
  {
    hide Reachable, InputsValid, CheckAmount, IsSound, IsAffordable, NormalizeCurrency, DecidedDb, VersionNumbers;
    ReachableRequest(db, id);
    var (proposal, requested) := (db.proposals[db.approvals[id].proposal], db.versions[db.approvals[id].requestedVersion]);
    SoundIsValid(proposal.action, requested.reason, requested.reasonText, requested.parameters);
    if IsSound(proposal.action, requested.reason, requested.reasonText, requested.parameters) {
      AffordableIsChecked(db, proposal.action, proposal.order, requested.amount, requested.reason, requested.reasonText, requested.parameters);
    }
    if verdict.change.Some? {
      var change := verdict.change.value;
      SoundIsValid(proposal.action, change.reason, change.reasonText, change.parameters);
      if IsSound(proposal.action, change.reason, change.reasonText, change.parameters) {
        AffordableIsChecked(db, proposal.action, proposal.order, change.amount, change.reason, change.reasonText, change.parameters);
      }
    }
  }

  /** What a first decision writes: the decision, the states it implies, a version with the changed
      content and the next number if it changes the request, and its audit entries. */
  lemma FirstDecidedRows(db: Db, id: Id, verdict: Verdict, decisionId: Id, versionId: Id)
    requires id !in db.decisions && DecideApproval(db, id, verdict, decisionId, versionId).Ok?
    ensures id in db.approvals && db.approvals[id].proposal in db.proposals && (verdict.kind == ApproveChanged ==> verdict.change.Some?)
    ensures var (db', reply) := DecideApproval(db, id, verdict, decisionId, versionId).value;
            var (approval, p) := (db.approvals[id], db.approvals[id].proposal);
            var changed := verdict.kind == ApproveChanged;
            var version := if changed then versionId else approval.requestedVersion;
            var run := db.proposals[p].run;
            && reply == DecisionReply(true, Decision(decisionId, verdict.kind, version, verdict.decider, verdict.comment))
            && db'.decisions == db.decisions[id := reply.decision]
            && db'.approvals == db.approvals[id := approval.(
                 status := match verdict.kind case Approve => ApprovedAsIs case ApproveChanged => ApprovedWithChanges case Reject => RejectedApproval,
                 decided := true)]
            && db'.proposals == db.proposals[p := db.proposals[p].(
                 status := if verdict.kind == Reject then Rejected else Approved, currentVersion := version)]
            && (!changed ==> db'.versions == db.versions)
            && (changed ==>
                  var c := verdict.change.value;
                  exists n: nat :: IsNextNumber(db, p, n)
                    && db'.versions == db.versions[versionId := Version(p, n, c.amount, NormalizeCurrency(c.currency), c.reason, c.reasonText,
                                                                        c.parameters, verdict.decider)])
            && db'.audit == db.audit
               + [AuditEntry(run, Some(p), User(verdict.decider), DecisionRecorded, ApprovalResource(id))]
               + (if changed then [AuditEntry(run, Some(p), User(verdict.decider), VersionCreated, VersionResource(versionId))] else [])
            && db' == db.(decisions := db'.decisions, approvals := db'.approvals, proposals := db'.proposals, versions := db'.versions,
                          audit := db'.audit)
  {
    hide InputsValid, CheckAmount, NormalizeCurrency, SameContent;
    if verdict.kind == ApproveChanged {
      NextNumberIs(db, db.approvals[id].proposal);
    }
  }

  lemma NextNumberIs(db: Db, p: Id)
    ensures IsNextNumber(db, p, MaxNumber(VersionNumbers(db.versions, p)) + 1)
  {
    var numbers := VersionNumbers(db.versions, p);
    forall v | v in db.versions && db.versions[v].proposal == p
      ensures db.versions[v].number <= MaxNumber(numbers)
    {
      assert db.versions[v].number in numbers;
    }
  }

  /** One more than every number of the proposal so far, and than none of them needlessly. */
  ghost predicate IsNextNumber(db: Db, p: Id, n: nat) {
    && n >= 1
    && (forall v :: v in db.versions && db.versions[v].proposal == p ==> db.versions[v].number < n)
    && (n == 1 || exists v :: v in db.versions && db.versions[v].proposal == p && db.versions[v].number == n - 1)
  }

  // ---- record_execution_success --------------------------------------------------------------------------

  /** The arguments repeat the rows, and the rows are ready for a success. */
  ghost predicate IsInOrder(db: Db, id: Id, s: Settlement) {
    && (match s.action case Refund => s.couponDays == None case Compensation => s.couponDays == Some(30))
    && id in db.executions && db.executions[id].status == InProgress
    && db.executions[id].proposal == s.proposal && db.executions[id].version == s.version && db.executions[id].action == s.action
    && s.proposal in db.proposals && s.version in db.versions && s.order in db.orders
    && db.proposals[s.proposal].order == s.order && db.proposals[s.proposal].action == s.action
    && db.proposals[s.proposal].status in {Approved, Executing}
    && db.proposals[s.proposal].run in db.runs && db.runs[db.proposals[s.proposal].run].status == Running
    && var version := db.versions[s.version];
    && version.proposal == s.proposal
    && version.amount == s.amount && version.currency == s.currency && version.reason == s.reason
    && s.currency == db.orders[s.order].currency && s.amount > 0
  }

  /** A refund within what is left; a compensation for a new reason, within half of the total. */
  predicate IsPayable(db: Db, s: Settlement)
    requires s.order in db.orders
  {
    match s.action
    case Refund => s.amount <= db.orders[s.order].total - SumFor(db.refunds, s.order)
    case Compensation => !IsCompensated(db, s.order, s.reason) && SumFor(db.compensations, s.order) + s.amount <= db.orders[s.order].total / 2
  }

  predicate IsCompensated(db: Db, order: Id, reason: Reason) {
    exists i :: 0 <= i < |db.compensations| && db.compensations[i].order == order && db.compensations[i].reason == reason
  }

  /** No record of the action has the identifier, the execution or the version. */
  predicate IsUnrecorded(db: Db, id: Id, s: Settlement) {
    match s.action
    case Refund => AllNew(db.refunds, id, s)
    case Compensation => AllNew(db.compensations, id, s)
  }

  predicate AllNew(records: seq<Record>, id: Id, s: Settlement) {
    forall i :: 0 <= i < |records| ==> records[i].id != s.record && records[i].execution != id && records[i].version != s.version
  }

  /** An unfinished execution is recorded exactly if everything is in order, the money is still
      there and nothing is recorded yet; without the money the error says why. */
  lemma RecordedIff(db: Db, id: Id, s: Settlement)
    requires id in db.executions ==> db.executions[id].status != Done
    ensures RecordSuccess(db, id, s).Ok? <==> IsInOrder(db, id, s) && IsPayable(db, s) && IsUnrecorded(db, id, s)
    ensures IsInOrder(db, id, s) && !IsPayable(db, s) ==>
              RecordSuccess(db, id, s) == Err(if s.action.Refund? then BalanceExceeded
                                              else if IsCompensated(db, s.order, s.reason) then CompensationDuplicate else CapExceeded)
    ensures IsInOrder(db, id, s) && IsPayable(db, s) && !IsUnrecorded(db, id, s) ==> RecordSuccess(db, id, s) == Err(DataIntegrity)
  {
    hide SumFor, SettledDb;
  }

  /** What a recorded success writes: one record that repeats the version, the finished execution
      with its result, the ended proposal and run, and two audit entries.  The order is marked
      refunded exactly if its refunds now add up to its total, by a refund; no other order changes. */
  lemma RecordedRows(db: Db, id: Id, s: Settlement)
    requires RecordSuccess(db, id, s).Ok? && (id in db.executions ==> db.executions[id].status != Done)
    ensures IsInOrder(db, id, s)
    ensures var (db', success) := RecordSuccess(db, id, s).value;
            var (refunded, run) := (success.orderRefunded, db.proposals[s.proposal].run);
            var record := Record(s.record, s.order, s.proposal, s.version, id, s.amount, s.currency, s.reason);
            && success == Success(id, s.record, refunded)
            && db'.refunds == (if s.action.Refund? then db.refunds + [record] else db.refunds)
            && db'.compensations == (if s.action.Refund? then db.compensations else db.compensations + [record])
            && (refunded <==> s.action.Refund? && SumFor(db'.refunds, s.order) == db.orders[s.order].total)
            && db'.orders == (if refunded then db.orders[s.order := db.orders[s.order].(status := OrderStatus.Refunded)] else db.orders)
            && db'.executions == db.executions[id := db.executions[id].(
                 status := Done, result := Some(ExecutionResult(s.record, refunded)), errorCode := None, errorRetryable := false, completed := true)]
            && db'.proposals == db.proposals[s.proposal := db.proposals[s.proposal].(status := ProposalSucceeded)]
            && db'.runs == db.runs[run := db.runs[run].(status := Succeeded, errorCode := None, errorRetryable := false, completed := true)]
            && db'.audit == db.audit + [
                 AuditEntry(run, Some(s.proposal), System, ExecutionSucceeded, ExecutionResource(id)),
                 AuditEntry(run, Some(s.proposal), System, RunSucceeded, RunResource(run))]
            && db' == db.(refunds := db'.refunds, compensations := db'.compensations, orders := db'.orders, executions := db'.executions,
                          proposals := db'.proposals, runs := db'.runs, audit := db'.audit)
  {
    hide HasRecordFor;
    var record := Record(s.record, s.order, s.proposal, s.version, id, s.amount, s.currency, s.reason);
    OneMoreRecord(db.refunds, record);
  }

  lemma {:induction false} OneMoreRecord(records: seq<Record>, record: Record)
    ensures SumFor(records + [record], record.order) == SumFor(records, record.order) + record.amount
  {
    assert (records + [record])[..|records|] == records;
  }

  /** Recording a finished execution again, with the arguments it has, changes nothing and repeats
      its result. */
  lemma RecordedAgain(db: Db, id: Id, s: Settlement)
    requires Reachable(db) && id in db.executions && db.executions[id].status == Done
    requires match s.action case Refund => s.couponDays == None case Compensation => s.couponDays == Some(30)
    requires db.executions[id].proposal == s.proposal && db.executions[id].version == s.version && db.executions[id].action == s.action
    ensures db.executions[id].result.Some?
    ensures var result := db.executions[id].result.value; RecordSuccess(db, id, s) == Ok((db, Success(id, result.record, result.orderRefunded)))
  {
    hide Reachable, Consistent, References, OneApproval, DecisionsAgree, Numbered, RunsAgree, SuccessesExecuted, MoneyBounded, OneActive,
         FullCoversRemaining, ExecutionsAgree, RecordsAgree;
    ReachableConsistent(db);
    Parts(db);
    DoneIsRecorded(db, id);
    var records := RecordsOf(db, s.action);
    forall i | 0 <= i < |records| && records[i].execution == id
      ensures records[i].id == db.executions[id].result.value.record
    {
      assert RecordFits(db, s.action, records[i]);
    }
  }

  lemma DoneIsRecorded(db: Db, e: Id)
    requires ExecutionsAgree(db) && RecordsAgree(db) && e in db.executions && db.executions[e].status == Done
    ensures db.executions[e].result.Some? && RecordedOnce(db, e)
    ensures var records := RecordsOf(db, db.executions[e].action);
            forall i :: 0 <= i < |records| ==> RecordFits(db, db.executions[e].action, records[i])
  {
    assert ExecutionFits(db, e);
  }

  // ---- Failures --------------------------------------------------------------------------------------------

  /** A proposal and its run that a failure may end. */
  ghost predicate MayFail(db: Db, p: Id, statuses: set<RunStatus>) {
    && p in db.proposals && db.proposals[p].status in {Approved, Executing, ProposalFailed}
    && db.proposals[p].run in db.runs && db.runs[db.proposals[p].run].status in statuses
  }

  /** The run after a failure: it can be taken up again exactly if the failure is retryable. */
  function FailedRow(run: Run, errorCode: string, retryable: bool): Run {
    run.(status := Failed, errorCode := Some(errorCode), errorRetryable := retryable, completed := !retryable)
  }

  /** Recording the failure of an execution: only a running one, whose proposal and run are open,
      changes, and then execution, proposal and run fail together. */
  lemma FailureRecorded(db: Db, id: Id, errorCode: string, retryable: bool)
    ensures var failed := RecordFailure(db, id, errorCode, retryable);
            if id !in db.executions then failed == Err(DataIntegrity)
            else
              var (execution, p) := (db.executions[id], db.executions[id].proposal);
              if execution.status in {Done, FailedTerminal} then failed == Ok((db, execution))
              else if execution.status != InProgress then failed == Err(RunStateConflict)
              else
                && (failed.Ok? <==> MayFail(db, p, {Queued, Running, Awaiting, Failed}))
                && (failed.Ok? ==>
                      var (run, row) := (db.proposals[p].run, execution.(
                        status := if retryable then FailedRetryable else FailedTerminal, errorCode := Some(errorCode),
                        errorRetryable := retryable, completed := !retryable));
                      failed == Ok((db.(
                        executions := db.executions[id := row],
                        proposals := db.proposals[p := db.proposals[p].(status := ProposalFailed)],
                        runs := db.runs[run := FailedRow(db.runs[run], errorCode, retryable)],
                        audit := db.audit + [AuditEntry(run, Some(p), System, ExecutionFailed, ExecutionResource(id)),
                                             AuditEntry(run, Some(p), System, RunFailed, RunResource(run))]), row)))
  {
    hide EndFailed, FailureAudited;
    if id in db.executions && db.executions[id].proposal in db.proposals {
      var p := db.executions[id].proposal;
      var written := db.(executions := db.executions[id := FailedExecution(db.executions[id], errorCode, retryable)]);
      FailuresEnd(written, p, {Queued, Running, Awaiting, Failed}, errorCode, retryable);
      if MayFail(db, p, {Queued, Running, Awaiting, Failed}) {
        FailuresAudited(EndFailed(written, p, db.proposals[p].run, {Queued, Running, Awaiting, Failed}, errorCode, retryable).value, p, id);
      }
    }
  }

  lemma FailuresEnd(db: Db, p: Id, statuses: set<RunStatus>, errorCode: string, retryable: bool)
    requires p in db.proposals
    ensures var (run, ended) := (db.proposals[p].run, EndFailed(db, p, db.proposals[p].run, statuses, errorCode, retryable));
            && (ended.Ok? <==> MayFail(db, p, statuses))
            && (ended.Ok? ==> ended == Ok(db.(proposals := db.proposals[p := db.proposals[p].(status := ProposalFailed)],
                                              runs := db.runs[run := FailedRow(db.runs[run], errorCode, retryable)])))
  {
  }

  lemma FailuresAudited(db: Db, p: Id, id: Id)
    requires p in db.proposals && db.proposals[p].run in db.runs
    ensures var run := db.proposals[p].run;
            FailureAudited(db, p, run, id)
            == Ok(db.(audit := db.audit + [AuditEntry(run, Some(p), System, ExecutionFailed, ExecutionResource(id)),
                                           AuditEntry(run, Some(p), System, RunFailed, RunResource(run))]))
  {
    var run := db.proposals[p].run;
    var (first, second) := (AuditEntry(run, Some(p), System, ExecutionFailed, ExecutionResource(id)),
                            AuditEntry(run, Some(p), System, RunFailed, RunResource(run)));
    assert db.audit + [first] + [second] == db.audit + [first, second];
  }

  /** Recording the failure of a workflow: nothing for a failed run, and only a running one fails,
      together with its proposal; its executions stay. */
  lemma WorkflowFailureRecorded(db: Db, run: Id, errorCode: string, retryable: bool)
    requires run in db.runs && db.runs[run].proposal.Some? && db.runs[run].proposal.value in db.proposals
    requires db.proposals[db.runs[run].proposal.value].run == run
    ensures var (failed, p) := (RecordWorkflowFailure(db, run, errorCode, retryable), db.runs[run].proposal.value);
            if db.runs[run].status == Failed then failed == Ok((db, ()))
            else
              && (failed.Ok? <==> MayFail(db, p, {Running}))
              && (failed.Ok? ==> failed == Ok((db.(
                    proposals := db.proposals[p := db.proposals[p].(status := ProposalFailed)],
                    runs := db.runs[run := FailedRow(db.runs[run], errorCode, retryable)],
                    audit := db.audit + [AuditEntry(run, Some(p), System, RunFailed, RunResource(run))]), ())))
  {
  }

  // ---- Claims ------------------------------------------------------------------------------------------------

  /** A claim that a proposal permits: it is approved, executing or failed, and no other proposal
      of its order and action is active. */
  ghost predicate MayExecute(db: Db, p: Id, statuses: set<ProposalStatus>) {
    && p in db.proposals && db.proposals[p].status in statuses && db.proposals[p].run in db.runs
    && forall q :: q in db.proposals && q != p && db.proposals[q].order == db.proposals[p].order && db.proposals[q].action == db.proposals[p].action ==>
         db.proposals[q].status !in {AwaitingApproval, Approved, Executing}
  }

  /** The tables with this claimed row: the proposal executes, and the claim is audited. */
  function ClaimedDb(db: Db, id: Id, row: Execution): Db
    requires row.proposal in db.proposals
  {
    var p := row.proposal;
    db.(executions := db.executions[id := row],
        proposals := db.proposals[p := db.proposals[p].(status := Executing)],
        audit := db.audit + [AuditEntry(db.proposals[p].run, Some(p), System, ExecutionClaimed, ExecutionResource(id))])
  }

  function Again(row: Execution): Execution {
    row.(status := Claimed, attempts := row.attempts + 1, errorCode := None, errorRetryable := false, completed := false)
  }

  /** A claim under a key that has an execution: it is returned as it is unless it failed; after a
      retryable failure it is claimed again with one attempt more, after any other refused.  In a
      reachable state no two executions have one key (KeysDiffer). */
  lemma ClaimedAgain(db: Db, proposal: Id, version: Id, action: ActionType, key: Key, newId: Id, e: Id)
    requires e in db.executions && db.executions[e].key == key && OneKey(db, e)
    ensures var (claimed, row) := (ClaimExecution(db, proposal, version, action, key, newId), db.executions[e]);
            if row.proposal != proposal || row.version != version || row.action != action then claimed == Err(DataIntegrity)
            else match row.status
                 case FailedTerminal => claimed == Err(RunStateConflict)
                 case FailedRetryable =>
                   && (claimed.Ok? <==> MayExecute(db, proposal, {Approved, Executing, ProposalFailed}))
                   && (claimed.Ok? ==> claimed == Ok((ClaimedDb(db, e, Again(row)), Claim(e, Again(row), true))))
                 case _ => claimed == Ok((db, Claim(e, row, false)))
  {
    assert ExecutionByKey(db, key) == Some(e);
  }

  ghost predicate OneKey(db: Db, e: Id)
    requires e in db.executions
  {
    forall f :: f in db.executions && db.executions[f].key == db.executions[e].key ==> f == e
  }

  lemma KeysDiffer(db: Db, e: Id)
    requires Reachable(db) && e in db.executions
    ensures OneKey(db, e)
  {
    hide Reachable, Consistent, References, OneApproval, DecisionsAgree, Numbered, RunsAgree, SuccessesExecuted, RecordsAgree, MoneyBounded,
         OneActive, FullCoversRemaining;
    ReachableConsistent(db);
    Parts(db);
  }

  /** A claim under a new key: exactly if the version is one of the proposal and has no execution
      yet, and then with the first attempt. */
  lemma ClaimedFirst(db: Db, proposal: Id, version: Id, action: ActionType, key: Key, newId: Id)
    requires forall e :: e in db.executions ==> db.executions[e].key != key
    ensures var (claimed, row) := (ClaimExecution(db, proposal, version, action, key, newId),
                                   Execution(proposal, version, action, key, Claimed, 1, None, None, false, false));
            && (claimed.Ok? <==> && MayExecute(db, proposal, {Approved, Executing, ProposalFailed})
                                 && version in db.versions && db.versions[version].proposal == proposal && db.proposals[proposal].action == action
                                 && newId !in db.executions && forall e :: e in db.executions ==> db.executions[e].version != version)
            && (claimed.Ok? ==> claimed == Ok((ClaimedDb(db, newId, row), Claim(newId, row, true))))
  {
    assert ExecutionByKey(db, key).None?;
    assert ExecutionByVersion(db, version).None? <==> forall e :: e in db.executions ==> db.executions[e].version != version;
  }

  /** Taking over an execution: only one that is claimed or running, with one attempt more. */
  lemma Reclaiming(db: Db, e: Id)
    requires e in db.executions
    ensures var (reclaimed, row) := (ReclaimExecution(db, e), db.executions[e]);
            if row.status in {Claimed, InProgress} then
              && (reclaimed.Ok? <==> MayExecute(db, row.proposal, {Approved, Executing}))
              && (reclaimed.Ok? ==> reclaimed == Ok((ClaimedDb(db, e, Again(row)), Claim(e, Again(row), true))))
            else reclaimed == Ok((db, Claim(e, row, false)))
  {
  }

  lemma Marking(db: Db, e: Id)
    requires e in db.executions
    ensures var (marked, row) := (MarkRunning(db, e), db.executions[e]);
            match row.status
            case Claimed => marked == Ok((db.(executions := db.executions[e := row.(status := InProgress)]), row.(status := InProgress)))
            case Done => marked == Ok((db, row))
            case InProgress => marked == Ok((db, row))
            case _ => marked == Err(RunStateConflict)
  {
  }

  // ---- transition_run and append_audit_log ---------------------------------------------------------------------

  /** The edges of the run machine; a failed run can only be taken up again after a retryable failure. */
  predicate IsEdge(run: Run, status: RunStatus) {
    match run.status
    case Queued => status in {Running, Failed}
    case Running => status in {Awaiting, Succeeded, Failed, Cancelled}
    case Awaiting => status in {Running, Failed}
    case Failed => status == Running && run.errorRetryable
    case _ => false
  }

  /** An entry that the audit log takes: of an existing run, a proposal of that run, and a member. */
  ghost predicate IsAuditable(db: Db, entry: AuditEntry) {
    && entry.run in db.runs
    && (entry.proposal.Some? ==> entry.proposal.value in db.proposals && db.proposals[entry.proposal.value].run == entry.run)
    && (entry.actor.User? ==> entry.actor.id in db.members)
  }

  /** A run moves along an edge that the caller expects, with an error code exactly if it fails, and
      the move is audited; it is completed exactly by success, cancellation or a final failure. */
  lemma Transitions(db: Db, r: Id, t: Transition)
    requires r in db.runs
    ensures var (moved, run, entry) := (TransitionRun(db, r, t), db.runs[r], AuditEntry(r, db.runs[r].proposal, t.actor, t.event, RunResource(r)));
            && (moved.Ok? <==> && run.status in t.expected && IsEdge(run, t.status) && t.detailsValid && IsAuditable(db, entry)
                               && (if t.status == Failed then t.errorCode.Some? && exists i :: 0 <= i < |t.errorCode.value| && !IsSpace(t.errorCode.value[i])
                                   else t.errorCode.None? && !t.retryable))
            && (moved.Ok? ==> moved == Ok((db.(
                  runs := db.runs[r := run.(status := t.status, errorCode := t.errorCode, errorRetryable := t.retryable,
                                            completed := t.status in {Succeeded, Cancelled} || (t.status == Failed && !t.retryable))],
                  audit := db.audit + [entry]), ())))
  {
  }

  lemma Appending(db: Db, entry: AuditEntry, detailsValid: bool)
    ensures var appended := AppendAuditLog(db, entry, detailsValid);
            && (appended.Ok? <==> detailsValid && IsAuditable(db, entry))
            && (appended.Ok? ==> appended == Ok((db.(audit := db.audit + [entry]), ())))
  {
  }
}
