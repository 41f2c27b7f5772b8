/** The idempotent executor as a program: where a call of execute stands between two
    calls of the store, and what its next step does.

    A step makes at most one call of the store (or of the simulated adapter), because
    anything may happen between two of them. */
module ExecutorProgram {
  import opened Outcomes
  import opened ActionModel
  import opened ActionTransactions
  import opened ActionRuns

  /** How far _load_approved_chain has read; the five reads are five transactions. */
  datatype Load =
    | AtRun
    | AtProposal(run: Run)
    | AtApproval(run: Run, proposal: Id, row: Proposal)
    | AtDecision(run: Run, proposal: Id, row: Proposal, approval: Id, status: ApprovalStatus)
    | AtVersion(run: Run, proposal: Id, row: Proposal, approval: Id, decision: Decision)

  /** The rows a completed load returns; run and row may be outdated by then. */
  datatype Chain = Chain(run: Run, proposal: Id, row: Proposal, decision: Decision, version: Version)

  datatype LoadStep = More(load: Load) | Complete(chain: Chain) | Refused(error: Error)

  ghost function LoadNext(db: Db, run: Id, load: Load): LoadStep {
    match load
    case AtRun =>
      if run in db.runs then More(AtProposal(db.runs[run])) else Refused(RunNotFound)
    case AtProposal(row) =>
      if run !in db.runs then Refused(RunNotFound)
      else if db.runs[run].proposal.None? || db.runs[run].proposal.value !in db.proposals then Refused(DataIntegrity)
      else More(AtApproval(row, db.runs[run].proposal.value, db.proposals[db.runs[run].proposal.value]))
    case AtApproval(row, p, proposal) => (
      match ApprovalByProposal(db, p)
      case None => Refused(ApprovalNotFound)
      case Some(a) => More(AtDecision(row, p, proposal, a, db.approvals[a].status)))
    case AtDecision(row, p, proposal, a, status) =>
      if a !in db.decisions || !IsApproving(db.decisions[a].kind) then Refused(NotApproved)
      else if status !in {ApprovedAsIs, ApprovedWithChanges} then Refused(DataIntegrity)
      else More(AtVersion(row, p, proposal, a, db.decisions[a]))
    case AtVersion(row, p, proposal, a, decision) =>
      if decision.decidedVersion !in db.versions then Refused(DataIntegrity)
      else if db.versions[decision.decidedVersion].proposal != p then Refused(DataIntegrity)
      else if proposal.currentVersion != decision.decidedVersion then Refused(DataIntegrity)
      else Complete(Chain(row, p, proposal, decision, db.versions[decision.decidedVersion]))
  }

  function KeyOf(chain: Chain): Key {
    Key(chain.proposal, chain.decision.decidedVersion, chain.row.action)
  }

  /** How a call of execute ends: with an outcome, with an error of the workflow, or with
      any other exception. */
  datatype Ending = Executed(record: Id, orderRefunded: bool, replayed: bool) | Raised(error: Error) | Interrupted

  datatype Pc =
    | Outside(load: Load)             // reading the chain before the lock
    | Waiting(key: Key)               // taking the lock of the key
    | Inside(key: Key, load: Load)    // reading the chain again, under the lock
    | ToRead(key: Key, chain: Chain)
    | ToClaim(key: Key, chain: Chain)
    | ToReclaim(key: Key, chain: Chain, execution: Id)
    | ToMark(key: Key, chain: Chain, execution: Id)
    | ToAdapt(key: Key, chain: Chain, execution: Id)
    | ToRecord(key: Key, chain: Chain, execution: Id, record: Id)
    | ToFail(key: Key, chain: Chain, execution: Id, error: Error, retryable: bool)
    | Leaving(key: Key, ending: Ending)   // releasing the lock
    | Ended(ending: Ending)

  /** The choices that are not the program's: fresh identifiers, and whether the adapter's
      failure injector raises. */
  datatype Luck = Luck(newExecution: Id, record: Id, adapterFails: bool)

  function Replay(ex: Execution): Ending {
    if ex.result.Some? then Executed(ex.result.value.record, ex.result.value.orderRefunded, true) else Raised(DataIntegrity)
  }

  function AfterClaim(key: Key, chain: Chain, claim: Claim, mayReclaim: bool): Pc {
    if claim.acquired then ToMark(key, chain, claim.id)
    else if mayReclaim && claim.row.status in {Claimed, InProgress} then ToReclaim(key, chain, claim.id)
    else if claim.row.status == Done then Leaving(key, Replay(claim.row))
    else Leaving(key, Raised(RunStateConflict))
  }

  function SettlementOf(chain: Chain, record: Id): Settlement {
    Settlement(
      chain.proposal, chain.decision.decidedVersion, chain.row.order, chain.row.action, chain.version.amount,
      chain.version.currency, chain.version.reason, record,
      if chain.row.action.Compensation? && chain.version.parameters.CouponParameters?
      then Some(chain.version.parameters.days) else None)
  }

  /** The stable error code kept on a failed execution. */
  function ErrorCode(error: Error): string {
    match error
    case BalanceExceeded => "ACTION_REFUND_BALANCE_EXCEEDED"
    case CompensationDuplicate => "ACTION_COMPENSATION_DUPLICATE"
    case CapExceeded => "ACTION_COMPENSATION_CAP_EXCEEDED"
    case RetryableFailure => "EXECUTION_RETRYABLE_FAILURE"
    case _ => "EXECUTION_DATA_INTEGRITY_ERROR"
  }

  function AfterRecord(key: Key, chain: Chain, execution: Id, recorded: Transaction<Success>): Pc {
    match recorded
    case Ok((_, success)) => Leaving(key, Executed(success.record, success.orderRefunded, false))
    case Err(error) =>
      if error in {BalanceExceeded, CompensationDuplicate, CapExceeded, DataIntegrity}
      then ToFail(key, chain, execution, error, false)
      else Leaving(key, Raised(error))
  }

  /** A workflow error while recording the failure is swallowed, any other is not. */
  function AfterFailure(key: Key, error: Error, failed: Transaction<Execution>): Pc {
    Leaving(key, Raised(if failed.Err? && failed.error.ConstraintViolation? then ConstraintViolation else error))
  }

  /** The call of the store that the next step makes, if it makes a writing one. */
  function StoreCall(pc: Pc, luck: Luck): Option<Step> {
    match pc
    case ToClaim(key, chain) =>
      Some(ClaimStep(chain.proposal, chain.decision.decidedVersion, chain.row.action, key, luck.newExecution))
    case ToReclaim(_, _, execution) => Some(Reclaim(execution))
    case ToMark(_, _, execution) => Some(Mark(execution))
    case ToRecord(_, chain, execution, record) => Some(Succeed(execution, SettlementOf(chain, record)))
    case ToFail(_, _, execution, error, retryable) => Some(Fail(execution, ErrorCode(error), retryable))
    case _ => None
  }

  /** Where the call stands after its next step, given the tables before that step.  Taking
      the lock is only possible when it is free; the machine sees to that. */
  ghost function Continue(db: Db, run: Id, pc: Pc, luck: Luck): Pc {
    match pc
    case Outside(load) => (
      match LoadNext(db, run, load)
      case More(next) => Outside(next)
      case Complete(chain) => Waiting(KeyOf(chain))
      case Refused(error) => Ended(Raised(error)))
    case Waiting(key) => Inside(key, AtRun)
    case Inside(key, load) => (
      match LoadNext(db, run, load)
      case More(next) => Inside(key, next)
      case Complete(chain) => ToRead(key, chain)
      case Refused(error) => Leaving(key, Raised(error)))
    case ToRead(key, chain) => (
      match ExecutionByVersion(db, chain.decision.decidedVersion)
      case Some(e) =>
        if db.executions[e].status == Done then Leaving(key, Replay(db.executions[e]))
        else if chain.run.status != Running then Leaving(key, Raised(RunStateConflict))
        else ToClaim(key, chain)
      case None => if chain.run.status != Running then Leaving(key, Raised(RunStateConflict)) else ToClaim(key, chain))
    case ToClaim(key, chain) => (
      match ClaimExecution(db, chain.proposal, chain.decision.decidedVersion, chain.row.action, key, luck.newExecution)
      case Ok((_, claim)) => AfterClaim(key, chain, claim, true)
      case Err(error) => Leaving(key, Raised(error)))
    case ToReclaim(key, chain, execution) => (
      match ReclaimExecution(db, execution)
      case Ok((_, claim)) => AfterClaim(key, chain, claim, false)
      case Err(error) => Leaving(key, Raised(error)))
    case ToMark(key, chain, execution) => (
      match MarkRunning(db, execution)
      case Ok(_) => ToAdapt(key, chain, execution)
      case Err(error) => Leaving(key, Raised(error)))
    case ToAdapt(key, chain, execution) =>
      if !ParametersFit(chain.row.action, chain.version.parameters) then ToFail(key, chain, execution, DataIntegrity, false)
      else if luck.adapterFails then ToFail(key, chain, execution, RetryableFailure, true)
      else ToRecord(key, chain, execution, luck.record)
    case ToRecord(key, chain, execution, record) =>
      AfterRecord(key, chain, execution, RecordSuccess(db, execution, SettlementOf(chain, record)))
    case ToFail(key, _, execution, error, retryable) =>
      AfterFailure(key, error, RecordFailure(db, execution, ErrorCode(error), retryable))
    case Leaving(_, ending) => Ended(ending)
    case Ended(ending) => Ended(ending)
  }

  /** The tables after the next step. */
  ghost function Written(db: Db, pc: Pc, luck: Luck): Db {
    match StoreCall(pc, luck)
    case Some(step) => Apply(db, step)
    case None => db
  }
}
