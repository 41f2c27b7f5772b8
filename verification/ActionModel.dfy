/** The rows of the refund and compensation workflow: one datatype per table, and
    the database slice of one organization as the record of its tables.

    Every statement of the store filters on one organization id, so one call only
    ever touches one slice.  Identifiers are compared and nothing else, so they are
    numbers here.  JSON columns are the values they carry; a parameter value keeps
    the spelling of its JSON text, because two decisions are compared by that text. */
module ActionModel {
  import opened Outcomes
  import opened Text

  type Id = nat

  datatype ActionType = Refund | Compensation

  datatype Reason =
    | CustomerCancellation | ChangedMindReturn | QualityIssue | DamagedItem | WrongItem
    | MissingItem | NotAsDescribed | OutOfStock | DeliveryDelay | LostInTransit
    | DelayedShipment | TransitDelay | CustomerDispute
    | OtherReason
    | UnlistedReason(code: string)

  datatype Scope = Full | Partial

  datatype Parameters =
    | RefundParameters(scope: Scope, spelling: string)
    | CouponParameters(days: int, spelling: string)
    | MalformedParameters(text: string)

  datatype RunStatus = Queued | Running | Awaiting | Succeeded | Failed | Cancelled

  datatype ProposalStatus =
    | AwaitingApproval | Approved | Executing | ProposalSucceeded | Rejected | ProposalFailed

  datatype ApprovalStatus = Pending | ApprovedAsIs | ApprovedWithChanges | RejectedApproval

  datatype DecisionKind = Approve | ApproveChanged | Reject

  datatype ExecutionStatus = Claimed | InProgress | Done | FailedRetryable | FailedTerminal

  datatype OrderStatus =
    | PendingPayment | Paid | Processing | Shipped | Delivered | CancelledOrder | Refunded

  /** The versioned idempotency key: its four components (module IdempotencyKey shows
      that the text the code builds determines them). */
  datatype Key = Key(proposal: Id, version: Id, action: ActionType)

  datatype Order = Order(status: OrderStatus, total: nat, currency: string)

  datatype Run = Run(
    conversation: Id, turn: Id, creator: Id, workflow: ActionType, status: RunStatus,
    proposal: Option<Id>, errorCode: Option<string>, errorRetryable: bool, completed: bool)

  datatype Proposal = Proposal(
    run: Id, order: Id, action: ActionType, status: ProposalStatus, currentVersion: Id, creator: Id)

  datatype Version = Version(
    proposal: Id, number: nat, amount: int, currency: string, reason: Reason, reasonText: string,
    parameters: Parameters, creator: Id)

  datatype Approval = Approval(
    proposal: Id, requestedVersion: Id, requester: Id, status: ApprovalStatus, decided: bool)

  datatype Decision = Decision(
    id: Id, kind: DecisionKind, decidedVersion: Id, decider: Id, comment: Option<string>)

  datatype ExecutionResult = ExecutionResult(record: Id, orderRefunded: bool)

  datatype Execution = Execution(
    proposal: Id, version: Id, action: ActionType, key: Key, status: ExecutionStatus, attempts: nat,
    result: Option<ExecutionResult>, errorCode: Option<string>, errorRetryable: bool, completed: bool)

  /** A row of refund_records or compensation_records. */
  datatype Record = Record(
    id: Id, order: Id, proposal: Id, version: Id, execution: Id, amount: int, currency: string,
    reason: Reason)

  datatype Actor = System | User(id: Id)

  datatype Event =
    | RunCreated | VersionCreated | ApprovalRequested | DecisionRecorded | ExecutionClaimed
    | ExecutionSucceeded | ExecutionFailed | RunSucceeded | RunFailed | OtherEvent(name: string)

  datatype Resource =
    | RunResource(id: Id) | VersionResource(id: Id) | ApprovalResource(id: Id)
    | ExecutionResource(id: Id) | OtherResource(kind: string, id: Id)

  datatype AuditEntry = AuditEntry(
    run: Id, proposal: Option<Id>, actor: Actor, event: Event, resource: Resource)

  /** The proposed content of the next version, as a changed approval carries it. */
  datatype NewVersion = NewVersion(
    amount: int, currency: string, reason: Reason, reasonText: string, parameters: Parameters)

  /** The tables of one organization.  Decisions are keyed by their approval (one decision
      per approval is a unique constraint); the insert-only record and audit tables are
      kept in row order. */
  datatype Db = Db(
    members: set<Id>,
    orders: map<Id, Order>,
    runs: map<Id, Run>,
    proposals: map<Id, Proposal>,
    versions: map<Id, Version>,
    approvals: map<Id, Approval>,
    decisions: map<Id, Decision>,
    executions: map<Id, Execution>,
    refunds: seq<Record>,
    compensations: seq<Record>,
    audit: seq<AuditEntry>)

  datatype Error =
    | ActionFailed | OrderNotFound | InvalidAmount | CurrencyMismatch | ActiveProposalExists
    | BalanceExceeded | CompensationDuplicate | CapExceeded
    | ApprovalNotFound | AdminRequired | AlreadyDecided | InvalidChanges
    | ProposalNotFound | RunNotFound | RunStateConflict
    | NotApproved | RetryableFailure | DataIntegrity
    | ConstraintViolation  // sqlite3.IntegrityError leaving the store untranslated

  type Transaction<T> = Outcome<(Db, T), Error>

  const COUPON_VALID_DAYS := 30

  predicate ReasonListed(action: ActionType, reason: Reason) {
    match reason
    case UnlistedReason(_) => false
    case OtherReason => true
    case DelayedShipment | TransitDelay | CustomerDispute => action.Compensation?
    case _ => action.Refund?
  }

  predicate ParametersFit(action: ActionType, parameters: Parameters) {
    match action
    case Refund => parameters.RefundParameters?
    case Compensation => parameters.CouponParameters? && parameters.days == COUPON_VALID_DAYS
  }

  /** Reason code, type parameters, and a non-blank explanation for the reason "other". */
  predicate InputsValid(action: ActionType, reason: Reason, reasonText: string, parameters: Parameters) {
    && ParametersFit(action, parameters)
    && ReasonListed(action, reason)
    && (reason == OtherReason ==> !Blank(reasonText))
  }

  predicate IsActive(status: ProposalStatus) {
    status in {AwaitingApproval, Approved, Executing}
  }

  predicate IsApproving(kind: DecisionKind) {
    kind != Reject
  }

  /** The amount the records of an order add up to. */
  function SumFor(records: seq<Record>, order: Id): int {
    if records == [] then 0
    else
      var last := records[|records| - 1];
      SumFor(records[..|records| - 1], order) + (if last.order == order then last.amount else 0)
  }

  function RecordsOf(db: Db, action: ActionType): seq<Record> {
    if action.Refund? then db.refunds else db.compensations
  }

  function Remaining(db: Db, order: Id): int
    requires order in db.orders
  {
    db.orders[order].total - SumFor(db.refunds, order)
  }
}
