/** What holds of the tables between any two transactions. */
module ActionInvariants {
  import opened Outcomes
  import opened ActionModel
  import opened ActionTransactions

  /** Runs and proposals point at each other, every reference leads to a row of the same
      proposal, and every version fits the action and the currency of its order. */
  ghost predicate References(db: Db) {
    && RunsLinked(db)
    && ProposalsLinked(db)
    && (forall v :: v in db.versions ==> VersionFits(db, v))
    && ApprovalsLinked(db)
  }

  ghost predicate RunsLinked(db: Db) {
    forall r :: r in db.runs ==>
      && db.runs[r].proposal.Some?
      && db.runs[r].proposal.value in db.proposals
      && db.proposals[db.runs[r].proposal.value].run == r
      && db.proposals[db.runs[r].proposal.value].action == db.runs[r].workflow
  }

  ghost predicate ProposalsLinked(db: Db) {
    forall p :: p in db.proposals ==>
      && db.proposals[p].run in db.runs
      && db.runs[db.proposals[p].run].proposal == Some(p)
      && db.proposals[p].order in db.orders
      && db.proposals[p].currentVersion in db.versions
      && db.versions[db.proposals[p].currentVersion].proposal == p
  }

  ghost predicate ApprovalsLinked(db: Db) {
    forall a :: a in db.approvals ==>
      && db.approvals[a].proposal in db.proposals
      && db.approvals[a].requestedVersion in db.versions
      && db.versions[db.approvals[a].requestedVersion].proposal == db.approvals[a].proposal
  }

  ghost predicate VersionFits(db: Db, v: Id)
    requires v in db.versions
  {
    var version := db.versions[v];
    && version.proposal in db.proposals
    && version.amount > 0
    && ParametersFit(db.proposals[version.proposal].action, version.parameters)
    && db.proposals[version.proposal].order in db.orders
    && version.currency == db.orders[db.proposals[version.proposal].order].currency
  }

  /** Each proposal has exactly one approval. */
  ghost predicate OneApproval(db: Db) {
    && (forall p :: p in db.proposals ==> ApprovalByProposal(db, p).Some?)
    && (forall a, b :: a in db.approvals && b in db.approvals && db.approvals[a].proposal == db.approvals[b].proposal ==> a == b)
  }

  /** The approval, the decision and the proposal tell the same story: an approval is
      pending exactly when there is no decision and exactly when its proposal awaits
      approval, a proposal is rejected exactly by a rejecting decision, and the current
      version is the decided one, or the requested one while undecided. */
  ghost predicate DecisionsAgree(db: Db) {
    && (forall a :: a in db.decisions ==> a in db.approvals)
    && (forall a :: a in db.approvals ==> ApprovalAgrees(db, a))
  }

  ghost predicate ApprovalAgrees(db: Db, a: Id)
    requires a in db.approvals
  {
    var approval := db.approvals[a];
    && approval.proposal in db.proposals
    && var proposal := db.proposals[approval.proposal];
    && (a in db.decisions <==> approval.status != Pending)
    && (a in db.decisions <==> approval.decided)
    && (a in db.decisions <==> proposal.status != AwaitingApproval)
    && (a !in db.decisions ==> proposal.currentVersion == approval.requestedVersion)
    && (a in db.decisions ==>
          var decision := db.decisions[a];
          && approval.status == StatusAfter(decision.kind)
          && (proposal.status == Rejected <==> decision.kind == Reject)
          && proposal.currentVersion == decision.decidedVersion
          && (decision.kind != ApproveChanged <==> decision.decidedVersion == approval.requestedVersion))
  }

  /** The versions of a proposal are numbered 1..n without repetition. */
  ghost predicate Numbered(versions: map<Id, Version>) {
    && (forall v :: v in versions ==> versions[v].number >= 1)
    && (forall v, w :: v in versions && w in versions && SameNumber(versions[v], versions[w]) ==> v == w)
    && (forall v :: v in versions && versions[v].number > 1 ==>
          versions[v].number - 1 in VersionNumbers(versions, versions[v].proposal))
  }

  predicate SameNumber(v: Version, w: Version) {
    v.proposal == w.proposal && v.number == w.number
  }

  /** One execution per key and per version, only of approved proposals; a finished one
      means that its proposal succeeded, and a succeeded proposal that its run did. */
  ghost predicate ExecutionsAgree(db: Db) {
    && (forall e :: e in db.executions ==> ExecutionFits(db, e))
    && (forall e, f :: e in db.executions && f in db.executions && db.executions[e].key == db.executions[f].key ==> e == f)
    && (forall e, f :: e in db.executions && f in db.executions && db.executions[e].version == db.executions[f].version ==> e == f)
    && OneDone(db.executions)
  }

  /** A proposal is carried out at most once, whichever of its versions is executed. */
  ghost predicate OneDone(executions: map<Id, Execution>) {
    forall e, f :: e in executions && f in executions && BothDone(executions[e], executions[f]) ==> e == f
  }

  predicate BothDone(ex: Execution, other: Execution) {
    ex.status == Done && other.status == Done && ex.proposal == other.proposal
  }

  ghost predicate ExecutionFits(db: Db, e: Id)
    requires e in db.executions
  {
    var ex := db.executions[e];
    && ex.proposal in db.proposals
    && ex.version in db.versions
    && db.versions[ex.version].proposal == ex.proposal
    && db.proposals[ex.proposal].action == ex.action
    && db.proposals[ex.proposal].status !in {AwaitingApproval, Rejected}
    && ex.attempts >= 1
    && (ex.status == Done <==> ex.result.Some?)
    && (ex.status == Done ==> db.proposals[ex.proposal].status == ProposalSucceeded)
  }

  ghost predicate RunsAgree(db: Db) {
    && (forall p :: p in db.proposals && db.proposals[p].status == ProposalSucceeded ==>
          db.proposals[p].run in db.runs && db.runs[db.proposals[p].run].status == Succeeded)
    && FlagsAgree(db.runs)
  }

  /** A proposal succeeds only by a finished execution. */
  ghost predicate SuccessesExecuted(db: Db) {
    forall p :: p in db.proposals && db.proposals[p].status == ProposalSucceeded ==> IsExecuted(db.executions, p)
  }

  ghost predicate IsExecuted(executions: map<Id, Execution>, p: Id) {
    exists e :: e in executions && executions[e].status == Done && executions[e].proposal == p
  }

  ghost predicate FlagsAgree(runs: map<Id, Run>) {
    forall r :: r in runs ==> RunFlagsAgree(runs[r])
  }

  predicate RunFlagsAgree(run: Run) {
    && (run.completed <==> run.status in {Succeeded, Cancelled} || (run.status == Failed && !run.errorRetryable))
    && (run.status != Failed ==> run.errorCode.None? && !run.errorRetryable)
  }

  /** Every record is the record of a finished execution and repeats its version. */
  ghost predicate RecordsAgree(db: Db) {
    && (forall i :: 0 <= i < |db.refunds| ==> RecordFits(db, Refund, db.refunds[i]))
    && (forall i :: 0 <= i < |db.compensations| ==> RecordFits(db, Compensation, db.compensations[i]))
    && Unrepeated(db.refunds)
    && Unrepeated(db.compensations)
    && (forall e :: e in db.executions && db.executions[e].status == Done ==> RecordedOnce(db, e))
  }

  ghost predicate RecordFits(db: Db, action: ActionType, record: Record) {
    && record.execution in db.executions
    && var ex := db.executions[record.execution];
    && ex.status == Done
    && ex.action == action
    && ex.result.Some? && ex.result.value.record == record.id
    && ChainMatches(ex, record.proposal, record.version, action)
    && record.proposal in db.proposals
    && db.proposals[record.proposal].order == record.order
    && record.version in db.versions
    && var version := db.versions[record.version];
    && record.amount == version.amount && record.currency == version.currency && record.reason == version.reason
  }

  ghost predicate RecordedOnce(db: Db, e: Id)
    requires e in db.executions
  {
    exists i :: 0 <= i < |RecordsOf(db, db.executions[e].action)| &&
                RecordsOf(db, db.executions[e].action)[i].execution == e
  }

  ghost predicate Unrepeated(records: seq<Record>) {
    && (forall i, j :: 0 <= i < j < |records| ==> records[i].execution != records[j].execution)
    && (forall i, j :: 0 <= i < j < |records| ==> records[i].version != records[j].version)
  }

  /** An order never pays back more than its total, never grants more than half of it as
      compensation, and grants each compensation reason once. */
  ghost predicate MoneyBounded(db: Db) {
    && (forall o :: o in db.orders ==> SumFor(db.refunds, o) <= db.orders[o].total)
    && (forall o :: o in db.orders ==> SumFor(db.compensations, o) <= db.orders[o].total / 2)
    && ReasonsUnrepeated(db.compensations)
  }

  ghost predicate ReasonsUnrepeated(records: seq<Record>) {
    forall i, j :: 0 <= i < j < |records| && records[i].order == records[j].order ==> records[i].reason != records[j].reason
  }

  /** At most one active proposal per order and action: the partial unique index. */
  ghost predicate OneActive(proposals: map<Id, Proposal>) {
    forall p, q :: p in proposals && q in proposals && CompeteForOrder(proposals[p], proposals[q]) ==> p == q
  }

  predicate CompeteForOrder(p: Proposal, q: Proposal) {
    IsActive(p.status) && IsActive(q.status) && p.order == q.order && p.action == q.action
  }

  predicate IsFullRefund(version: Version) {
    version.parameters.RefundParameters? && version.parameters.scope.Full?
  }

  /** An approved full refund covers at least what is left: it covered exactly that when
      it was decided, and what is left never grows. */
  ghost predicate FullCoversRemaining(db: Db) {
    forall a :: a in db.decisions && IsApproving(db.decisions[a].kind) ==> DecidedFullCovers(db, db.decisions[a].decidedVersion)
  }

  ghost predicate DecidedFullCovers(db: Db, v: Id) {
    v in db.versions && IsFullRefund(db.versions[v]) ==>
      && db.versions[v].proposal in db.proposals
      && db.proposals[db.versions[v].proposal].order in db.orders
      && db.versions[v].amount >= Remaining(db, db.proposals[db.versions[v].proposal].order)
  }

  /** An order with a refund record and nothing left is marked refunded. */
  ghost predicate RefundedWhenPaidBack(db: Db) {
    forall i :: 0 <= i < |db.refunds| ==>
      && db.refunds[i].order in db.orders
      && (Remaining(db, db.refunds[i].order) == 0 ==> db.orders[db.refunds[i].order].status == OrderStatus.Refunded)
  }

  ghost predicate Consistent(db: Db) {
    match db case Db(_, _, _, _, _, _, _, _, _, _, _) =>  // a match: one obligation for a caller that hides the body
    && References(db)
    && OneApproval(db)
    && DecisionsAgree(db)
    && Numbered(db.versions)
    && ExecutionsAgree(db)
    && RunsAgree(db)
    && SuccessesExecuted(db)
    && RecordsAgree(db)
    && MoneyBounded(db)
    && OneActive(db.proposals)
    && FullCoversRemaining(db)
    && RefundedWhenPaidBack(db)
  }
}
