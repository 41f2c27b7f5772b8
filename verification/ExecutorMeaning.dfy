/** What the executor's own steps come to, in rows and sums alone: when a recording goes through and
    what it leaves, which error a refusal ends in, and when a call writes nothing. */
module ExecutorMeaning {
  import opened Outcomes
  import opened ActionModel
  import opened ActionTransactions
  import opened ActionInvariants
  import opened ActionMeaning
  import opened ExecutorProgram
  import opened ExecutorMachine
  import opened ExecutorSafety
  import opened ExecutorTheorems
  import opened ExecutorAlone
  import opened ExecutorRetry
  import opened ExecutorPromises

  // ---- The reads --------------------------------------------------------------------------------------

  /** A call for a run that is not there, or whose action nobody has approved, ends in the error that
      says so and writes nothing. */
  lemma UnapprovedIsRefused(now: Process, run: Id, luck: Luck)
    requires Reachable(now)
    ensures run !in now.db.runs ==> Execute(now.db, run, luck) == (now.db, Raised(RunNotFound))
    ensures run in now.db.runs && !(exists p, a :: IsApproved(now.db, run, p, a)) ==>
              Execute(now.db, run, luck) == (now.db, Raised(NotApproved))
  {
    hide Reachable, Consistent, Execute, LoadAll, IsApproved;
    ReachableTables(now);
    FinishLoads(now.db, run, luck);
    ReadRow(now.db, run, AtRun);
    if run in now.db.runs && !exists p, a :: IsApproved(now.db, run, p, a) {
      var row := now.db.runs[run];
      var p, a := ApprovalOfRun(now.db, run);
      ReadRow(now.db, run, AtProposal(row));
      ReadRow(now.db, run, AtApproval(row, p, now.db.proposals[p]));
      NoApproval(now.db, run, p, a);
      ReadRow(now.db, run, AtDecision(row, p, now.db.proposals[p], a, now.db.approvals[a].status));
    }
  }

  lemma ApprovalOfRun(db: Db, run: Id) returns (p: Id, a: Id)
    requires Consistent(db) && run in db.runs
    ensures db.runs[run].proposal == Some(p) && p in db.proposals && ApprovalByProposal(db, p) == Some(a)
    ensures a in db.approvals && db.approvals[a].proposal == p
  {
    p := db.runs[run].proposal.value;
    a := ApprovalByProposal(db, p).value;
  }

  lemma NoApproval(db: Db, run: Id, p: Id, a: Id)
    requires Consistent(db) && run in db.runs && db.runs[run].proposal == Some(p) && p in db.proposals
    requires a in db.approvals && db.approvals[a].proposal == p && !IsApproved(db, run, p, a)
    ensures a !in db.decisions || !IsApproving(db.decisions[a].kind)
  {
    hide Consistent;
    if a in db.decisions && IsApproving(db.decisions[a].kind) {
      DecidedFacts(db, a);
    }
  }

  /** With the execution of the decided version finished, the call answers from its result; otherwise
      it claims, if the run was running when the chain was read. */
  lemma ReadStep(sys: Process, t: nat, luck: Luck, e: Id)
    requires Reachable(sys) && t in sys.threads && sys.threads[t].pc.ToRead?
    requires HasExecution(sys.db, sys.threads[t].pc.chain.decision.decidedVersion) ==>
               e in sys.db.executions && sys.db.executions[e].version == sys.threads[t].pc.chain.decision.decidedVersion
    ensures var (pc, db, next) := (sys.threads[t].pc, sys.db, Next(sys, Go(t, luck)));
            var found := HasExecution(db, pc.chain.decision.decidedVersion);
            && next.db == db && t in next.threads
            && (found && db.executions[e].status == Done ==>
                  && db.executions[e].result.Some?
                  && var result := db.executions[e].result.value;
                  next.threads[t].pc == Leaving(pc.key, Executed(result.record, result.orderRefunded, true)))
            && (!(found && db.executions[e].status == Done) ==>
                  next.threads[t].pc == if pc.chain.run.status == Running then ToClaim(pc.key, pc.chain)
                                        else Leaving(pc.key, Raised(RunStateConflict)))
  {
    hide Reachable, Consistent;
    ReachableTables(sys);
    if HasExecution(sys.db, sys.threads[t].pc.chain.decision.decidedVersion) {
      OneExecutionOf(sys.db, e);
      if sys.db.executions[e].status == Done {
        DoneHasResult(sys.db, e);
      }
    }
  }

  predicate HasExecution(db: Db, version: Id) {
    exists e :: e in db.executions && db.executions[e].version == version
  }

  // ---- The claim --------------------------------------------------------------------------------------

  /** A claim for a version that has an execution: an unfinished one is taken over, a finished one
      answered from, a retryably failed one claimed again, and one that failed for good refused. */
  lemma ClaimStepAgain(sys: Process, t: nat, luck: Luck, e: Id)
    requires Reachable(sys) && t in sys.threads && sys.threads[t].pc.ToClaim?
    requires e in sys.db.executions && sys.db.executions[e].version == sys.threads[t].pc.chain.decision.decidedVersion
    ensures var (pc, db, next) := (sys.threads[t].pc, sys.db, Next(sys, Go(t, luck)));
            var row := db.executions[e];
            && t in next.threads && row.proposal in db.proposals
            && match row.status
               case FailedRetryable =>
                 if MayExecute(db, pc.chain.proposal, {Approved, Executing, ProposalFailed}) then
                   next.db == ActionMeaning.ClaimedDb(db, e, Again(row)) && next.threads[t].pc == ToMark(pc.key, pc.chain, e)
                 else next.db == db && IsRefusal(next.threads[t].pc)
               case FailedTerminal => next.db == db && next.threads[t].pc == Leaving(pc.key, Raised(RunStateConflict))
               case Done => next.db == db && next.threads[t].pc == Leaving(pc.key, Replay(row))
               case _ => next.db == db && next.threads[t].pc == ToReclaim(pc.key, pc.chain, e)
  {
    hide Reachable, Consistent, ClaimExecution, MayExecute, ActionMeaning.ClaimedDb;
    ClaimantFacts(sys, t);
    var (db, pc) := (sys.db, sys.threads[t].pc);
    ReachableTables(sys);
    ClaimedFacts(db, e);
    ClaimedOnce(db, e);
    ClaimedAgain(db, pc.chain.proposal, pc.chain.decision.decidedVersion, pc.chain.row.action, pc.key, luck.newExecution, e);
  }

  /** What a call that is about to claim works on. */
  lemma ClaimantFacts(sys: Process, t: nat)
    requires Reachable(sys) && t in sys.threads && sys.threads[t].pc.ToClaim?
    ensures RepeatsRows(sys.db, sys.threads[t].run, sys.threads[t].pc.chain) && sys.threads[t].pc.key == KeyOf(sys.threads[t].pc.chain)
  {
    hide Reachable, Safe, Consistent, IsDecided, ChainFits, ClaimsDecided, LocksAgree, ThreadsFit, WorkedOnce, FullPaidOut, Linked, ChainStands;
    ReachableIsSafe(sys);
    ReachableTables(sys);
    PcFitsAt(sys, t);
    SafeParts(sys);
    ChainFacts(sys.db, sys.threads[t].run, sys.threads[t].pc.chain);
    ChainIsKey(sys.db, sys.threads[t].run, sys.threads[t].pc.key, sys.threads[t].pc.chain);
  }

  lemma ClaimedOnce(db: Db, e: Id)
    requires Consistent(db) && e in db.executions
    ensures OneKey(db, e)
  {
  }

  predicate IsRefusal(pc: Pc) {
    pc.Leaving? && pc.ending.Raised?
  }

  /** The first claim for a version: one new execution at its first attempt, exactly if the proposal
      permits it and the identifier is new. */
  lemma ClaimStepFirst(sys: Process, t: nat, luck: Luck)
    requires Reachable(sys) && t in sys.threads && sys.threads[t].pc.ToClaim?
    requires !HasExecution(sys.db, sys.threads[t].pc.chain.decision.decidedVersion)
    ensures var (pc, db, next) := (sys.threads[t].pc, sys.db, Next(sys, Go(t, luck)));
            var (p, v, action) := (pc.chain.proposal, pc.chain.decision.decidedVersion, pc.chain.row.action);
            && t in next.threads && p in db.proposals
            && if MayExecute(db, p, {Approved, Executing, ProposalFailed}) && luck.newExecution !in db.executions then
                 && next.db == ActionMeaning.ClaimedDb(db, luck.newExecution,
                                 Execution(p, v, action, pc.key, Claimed, 1, None, None, false, false))
                 && next.threads[t].pc == ToMark(pc.key, pc.chain, luck.newExecution)
               else next.db == db && IsRefusal(next.threads[t].pc)
  {
    hide Reachable, Consistent, ClaimsDecided, ClaimExecution, MayExecute, ActionMeaning.ClaimedDb;
    ClaimantFacts(sys, t);
    var (db, pc) := (sys.db, sys.threads[t].pc);
    ReachableTables(sys);
    forall e | e in db.executions
      ensures db.executions[e].key != pc.key
    {
      ClaimedFacts(db, e);
    }
    ClaimedFirst(db, pc.chain.proposal, pc.chain.decision.decidedVersion, pc.chain.row.action, pc.key, luck.newExecution);
  }

  /** Taking an unfinished execution over, if its proposal is still approved or executing. */
  lemma ReclaimStep(sys: Process, t: nat, luck: Luck)
    requires Reachable(sys) && t in sys.threads && sys.threads[t].pc.ToReclaim?
    ensures var (pc, db, next) := (sys.threads[t].pc, sys.db, Next(sys, Go(t, luck)));
            && pc.execution in db.executions && t in next.threads
            && var row := db.executions[pc.execution];
            && row.proposal in db.proposals
            && if MayExecute(db, row.proposal, {Approved, Executing}) then
                 next.db == ActionMeaning.ClaimedDb(db, pc.execution, Again(row)) && next.threads[t].pc == ToMark(pc.key, pc.chain, pc.execution)
               else next.db == db && IsRefusal(next.threads[t].pc)
  {
    hide Reachable, Safe, Consistent, ClaimsDecided, ReclaimExecution, MayExecute;
    ReachableIsSafe(sys);
    ReachableTables(sys);
    OwnFitsAt(sys, t);
    ClaimedFacts(sys.db, sys.threads[t].pc.execution);
    Reclaiming(sys.db, sys.threads[t].pc.execution);
  }

  /** The claimed execution is marked running, and nothing else. */
  lemma MarkingStep(sys: Process, t: nat, luck: Luck)
    requires Reachable(sys) && t in sys.threads && sys.threads[t].pc.ToMark?
    ensures var (pc, db, next) := (sys.threads[t].pc, sys.db, Next(sys, Go(t, luck)));
            && pc.execution in db.executions && t in next.threads
            && next.db == db.(executions := db.executions[pc.execution := db.executions[pc.execution].(status := InProgress)])
            && next.threads[t].pc == ToAdapt(pc.key, pc.chain, pc.execution)
  {
    hide Reachable, Safe;
    ReachableIsSafe(sys);
    OwnFitsAt(sys, t);
    Marking(sys.db, sys.threads[t].pc.execution);
  }

  // ---- The adapter ---------------------------------------------------------------------------------

  /** The adapter is asked once; its failure is retryable, and the failure of parameters never comes. */
  lemma AdapterStep(sys: Process, t: nat, luck: Luck)
    requires Reachable(sys) && t in sys.threads && sys.threads[t].pc.ToAdapt?
    ensures var (pc, next) := (sys.threads[t].pc, Next(sys, Go(t, luck)));
            && next.db == sys.db && t in next.threads
            && next.threads[t].pc == (if luck.adapterFails then ToFail(pc.key, pc.chain, pc.execution, RetryableFailure, true)
                                      else ToRecord(pc.key, pc.chain, pc.execution, luck.record))
  {
    hide Reachable, Safe, Consistent, ChainStands, IsDecided;
    ReachableIsSafe(sys);
    ReachableTables(sys);
    PcFitsAt(sys, t);
    ChainFacts(sys.db, sys.threads[t].run, sys.threads[t].pc.chain);
  }

  predicate RepeatsRows(db: Db, run: Id, chain: Chain) {
    var (p, v, row, version) := (chain.proposal, chain.decision.decidedVersion, chain.row, chain.version);
    && p in db.proposals && db.proposals[p].order == row.order && db.proposals[p].action == row.action && db.proposals[p].run == run && run in db.runs
    && v in db.versions && db.versions[v] == version && version.proposal == p && version.amount > 0
    && row.order in db.orders && version.currency == db.orders[row.order].currency
    && match row.action
       case Refund => version.parameters.RefundParameters?
       case Compensation => version.parameters.CouponParameters? && version.parameters.days == 30
  }

  /** The version a chain carries is the row in the table, and fits the action and the order. */
  lemma ChainFacts(db: Db, run: Id, chain: Chain)
    requires Consistent(db) && ChainFits(db, run, chain)
    ensures RepeatsRows(db, run, chain)
  {
    hide IsDecided;
    assert VersionFits(db, chain.decision.decidedVersion);
  }

  // ---- The recording ---------------------------------------------------------------------------------

  /** The proposal may still succeed: nothing else has ended it or its run. */
  predicate IsOpen(db: Db, p: Id) {
    && p in db.proposals && db.proposals[p].status in {Approved, Executing}
    && db.proposals[p].run in db.runs && db.runs[db.proposals[p].run].status == Running
  }

  /** The amount still fits the order: a refund what is left of it, a compensation half of it, for a
      reason that is new to it. */
  predicate MoneyFits(db: Db, order: Id, action: ActionType, version: Version)
    requires order in db.orders
  {
    match action
    case Refund => version.amount <= db.orders[order].total - SumFor(db.refunds, order)
    case Compensation =>
      && !IsCompensated(db, order, version.reason)
      && SumFor(db.compensations, order) + version.amount <= db.orders[order].total / 2
  }

  predicate IsNewRecord(db: Db, action: ActionType, record: Id) {
    forall i :: 0 <= i < |RecordsOf(db, action)| ==> RecordsOf(db, action)[i].id != record
  }

  /** The executor's own recording, with anything going on beside it: it goes through exactly if the
      proposal is still open, the money fits and the record identifier is new; without the money the
      tables stay and the call goes on to fail the execution for good, with the error that says why. */
  lemma RecordingIff(sys: Process, t: nat, luck: Luck)
    requires Reachable(sys) && t in sys.threads && sys.threads[t].pc.ToRecord?
    ensures var (pc, db, next) := (sys.threads[t].pc, sys.db, Next(sys, Go(t, luck)));
            var (p, order, action, version) := (pc.chain.proposal, pc.chain.row.order, pc.chain.row.action, pc.chain.version);
            && order in db.orders && t in next.threads
            && (next.db != db <==> IsOpen(db, p) && MoneyFits(db, order, action, version) && IsNewRecord(db, action, pc.record))
            && (IsOpen(db, p) && !MoneyFits(db, order, action, version) ==>
                  var error := if action.Refund? then BalanceExceeded
                               else if IsCompensated(db, order, version.reason) then CompensationDuplicate else CapExceeded;
                  next.threads[t].pc == ToFail(pc.key, pc.chain, pc.execution, error, false))
  {
    hide Reachable, Safe, Consistent, ChainStands, IsDecided, RecordSuccess, SumFor, OwnFits, ChainFits, IsUnrecorded;
    RecordingFacts(sys, t);
    var (db, pc) := (sys.db, sys.threads[t].pc);
    var s := SettlementOf(pc.chain, pc.record);
    RecordedIff(db, pc.execution, s);
    if RecordSuccess(db, pc.execution, s).Ok? {
      RecordedRows(db, pc.execution, s);
    }
  }

  /** What a recording starts from. */
  lemma RecordingFacts(sys: Process, t: nat)
    requires Reachable(sys) && t in sys.threads && sys.threads[t].pc.ToRecord?
    ensures var (db, pc) := (sys.db, sys.threads[t].pc);
            var (s, version) := (SettlementOf(pc.chain, pc.record), pc.chain.version);
            && pc.execution in db.executions && db.executions[pc.execution].status == InProgress
            && s.order in db.orders && s.version in db.versions && db.versions[s.version] == version
            && (IsInOrder(db, pc.execution, s) <==> IsOpen(db, s.proposal))
            && (IsPayable(db, s) <==> MoneyFits(db, s.order, s.action, version))
            && (IsUnrecorded(db, pc.execution, s) <==> IsNewRecord(db, s.action, pc.record))
  {
    hide Reachable, Consistent, IsInOrder, IsOpen, IsUnrecorded, IsNewRecord;
    OwnerFacts(sys, t);
    ReachableTables(sys);
    var (db, pc) := (sys.db, sys.threads[t].pc);
    OrderlyIff(db, pc.execution, pc.chain, pc.record);
    UnfinishedIsUnrecorded(db, pc.chain.row.action, pc.execution);
    UnrecordedIff(db, pc.execution, SettlementOf(pc.chain, pc.record));
  }

  /** What a call that has marked its execution works on. */
  lemma OwnerFacts(sys: Process, t: nat)
    requires Reachable(sys) && t in sys.threads && (sys.threads[t].pc.ToRecord? || sys.threads[t].pc.ToFail?)
    ensures var (db, pc) := (sys.db, sys.threads[t].pc); IsOwned(db, sys.threads[t].run, pc.execution, pc.chain)
  {
    hide Reachable, Safe, Consistent, IsDecided, ChainFits, ClaimsDecided, LocksAgree, ThreadsFit, WorkedOnce, FullPaidOut, Linked, ChainStands;
    ReachableIsSafe(sys);
    ReachableTables(sys);
    PcFitsAt(sys, t);
    OwnFitsAt(sys, t);
    SafeParts(sys);
    var (db, pc, run) := (sys.db, sys.threads[t].pc, sys.threads[t].run);
    ChainFacts(db, run, pc.chain);
    ChainIsKey(db, run, pc.key, pc.chain);
    ClaimOf(db, pc.execution);
  }

  lemma ClaimOf(db: Db, e: Id)
    requires ClaimsDecided(db) && e in db.executions
    ensures var ex := db.executions[e]; ex.key == Key(ex.proposal, ex.version, ex.action)
  {
    hide IsDecided;
  }

  /** The running execution of a chain, and the rows the chain repeats. */
  predicate IsOwned(db: Db, run: Id, e: Id, chain: Chain) {
    && e in db.executions && db.executions[e].status == InProgress && db.executions[e].proposal == chain.proposal
    && db.executions[e].version == chain.decision.decidedVersion && db.executions[e].action == chain.row.action
    && RepeatsRows(db, run, chain)
  }

  lemma OrderlyIff(db: Db, e: Id, chain: Chain, record: Id)
    requires exists run :: IsOwned(db, run, e, chain)
    ensures IsInOrder(db, e, SettlementOf(chain, record)) <==> IsOpen(db, chain.proposal)
  {
  }

  lemma UnrecordedIff(db: Db, e: Id, s: Settlement)
    requires forall i :: 0 <= i < |RecordsOf(db, s.action)| ==>
               RecordsOf(db, s.action)[i].execution != e && RecordsOf(db, s.action)[i].version != s.version
    ensures IsUnrecorded(db, e, s) <==> IsNewRecord(db, s.action, s.record)
  {
    var records := RecordsOf(db, s.action);
    assert IsUnrecorded(db, e, s) == AllNew(records, e, s);
  }

  /** No record belongs to an execution that is not finished, or to its version. */
  lemma UnfinishedIsUnrecorded(db: Db, action: ActionType, e: Id)
    requires Consistent(db) && e in db.executions && db.executions[e].status != Done
    ensures forall i :: 0 <= i < |RecordsOf(db, action)| ==>
              RecordsOf(db, action)[i].execution != e && RecordsOf(db, action)[i].version != db.executions[e].version
  {
    hide Consistent;
    OneExecutionOf(db, e);
    forall i | 0 <= i < |RecordsOf(db, action)|
      ensures RecordsOf(db, action)[i].execution != e && RecordsOf(db, action)[i].version != db.executions[e].version
    {
      RecordExecution(db, action, i);
      OneExecutionOf(db, RecordsOf(db, action)[i].execution);
    }
  }

  /** What the executor's own recording leaves: one record that repeats the decided version; the order
      is marked refunded, and the answer says so, exactly if its refunds now add up to its total. */
  lemma RecordingStep(sys: Process, t: nat, luck: Luck)
    requires Reachable(sys) && t in sys.threads && sys.threads[t].pc.ToRecord?
    requires Next(sys, Go(t, luck)).db != sys.db
    ensures var (pc, db, next) := (sys.threads[t].pc, sys.db, Next(sys, Go(t, luck)));
            var (db', p, v) := (next.db, pc.chain.proposal, pc.chain.decision.decidedVersion);
            var (order, action) := (pc.chain.row.order, pc.chain.row.action);
            && v in db.versions && order in db.orders && t in next.threads
            && var version := db.versions[v];
            var record := Record(pc.record, order, p, v, pc.execution, version.amount, version.currency, version.reason);
            var refunded := action.Refund? && SumFor(db'.refunds, order) == db.orders[order].total;
            && db'.refunds == (if action.Refund? then db.refunds + [record] else db.refunds)
            && db'.compensations == (if action.Refund? then db.compensations else db.compensations + [record])
            && db'.orders == (if refunded then db.orders[order := db.orders[order].(status := OrderStatus.Refunded)] else db.orders)
            && pc.execution in db'.executions && db'.executions[pc.execution].status == Done
            && db'.executions[pc.execution].result == Some(ExecutionResult(pc.record, refunded))
            && next.threads[t].pc == Leaving(pc.key, Executed(pc.record, refunded, false))
  {
    hide Reachable, Safe, Consistent, ChainStands, IsDecided, RecordSuccess, SumFor, OwnFits, ChainFits, IsUnrecorded, IsInOrder, IsPayable,
         IsOpen, MoneyFits, IsNewRecord;
    RecordingFacts(sys, t);
    var (db, pc) := (sys.db, sys.threads[t].pc);
    RecordedRows(db, pc.execution, SettlementOf(pc.chain, pc.record));
  }

  // ---- The failure -----------------------------------------------------------------------------------

  /** The executor's own failing of its execution: execution, proposal and run fail together, under
      the code of the error, unless something else has ended them; the caller sees the error itself. */
  lemma FailingStep(sys: Process, t: nat, luck: Luck)
    requires Reachable(sys) && t in sys.threads && sys.threads[t].pc.ToFail?
    ensures var (pc, db, next) := (sys.threads[t].pc, sys.db, Next(sys, Go(t, luck)));
            var (p, run) := (pc.chain.proposal, sys.threads[t].run);
            var code := ErrorCode(pc.error);
            && IsCodeOf(code, pc.error) && pc.execution in db.executions && p in db.proposals && run in db.runs && t in next.threads
            && next.threads[t].pc == Leaving(pc.key, Raised(pc.error))
            && next.db == (if !MayFail(db, p, {Queued, Running, Awaiting, Failed}) then db else db.(
                 executions := db.executions[pc.execution := db.executions[pc.execution].(
                   status := if pc.retryable then FailedRetryable else FailedTerminal, errorCode := Some(code),
                   errorRetryable := pc.retryable, completed := !pc.retryable)],
                 proposals := db.proposals[p := db.proposals[p].(status := ProposalFailed)],
                 runs := db.runs[run := FailedRow(db.runs[run], code, pc.retryable)],
                 audit := db.audit + [AuditEntry(run, Some(p), System, ExecutionFailed, ExecutionResource(pc.execution)),
                                      AuditEntry(run, Some(p), System, RunFailed, RunResource(run))]))
  {
    hide Reachable, RecordFailure, ErrorCode;
    OwnerFacts(sys, t);
    var (db, pc) := (sys.db, sys.threads[t].pc);
    FailureRecorded(db, pc.execution, ErrorCode(pc.error), pc.retryable);
    CodeIs(pc.error);
    FailureRaises(db, pc.execution, ErrorCode(pc.error), pc.retryable);
  }

  lemma CodeIs(error: Error)
    ensures IsCodeOf(ErrorCode(error), error)
  {
  }

  /** The stable code of each error that an execution can fail with. */
  predicate IsCodeOf(code: string, error: Error) {
    code == match error
            case BalanceExceeded => "ACTION_REFUND_BALANCE_EXCEEDED"
            case CompensationDuplicate => "ACTION_COMPENSATION_DUPLICATE"
            case CapExceeded => "ACTION_COMPENSATION_CAP_EXCEEDED"
            case RetryableFailure => "EXECUTION_RETRYABLE_FAILURE"
            case _ => "EXECUTION_DATA_INTEGRITY_ERROR"
  }

  lemma FailureRaises(db: Db, id: Id, errorCode: string, retryable: bool)
    ensures var failed := RecordFailure(db, id, errorCode, retryable); failed.Err? ==> !failed.error.ConstraintViolation?
  {
  }
}
