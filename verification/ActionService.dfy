/** The application service above the store: building a changed version from the fields an
    administrator may change, deciding, and the check before a run is resumed. */
module ActionService {
  import opened Outcomes
  import opened Text
  import opened ActionModel
  import opened ActionTransactions
  import opened ActionInvariants
  import opened ActionRuns
  import opened ActionHistory
  import opened ActionTheorems
  import opened ActionPromises
  import opened ActionMeaning

  datatype Membership = Outsider | Member | Admin

  /** The fields a changed approval may set; an absent one keeps the requested value. */
  datatype Changes = Changes(amount: Option<int>, reason: Option<Reason>, reasonText: Option<string>, scope: Option<Scope>)

  /** json.dumps of the type parameters */
  function SpelledScope(scope: Scope): Parameters {
    RefundParameters(scope, if scope.Full? then "{\"refund_scope\": \"full\"}" else "{\"refund_scope\": \"partial\"}")
  }

  const SPELLED_COUPON := CouponParameters(COUPON_VALID_DAYS, "{\"coupon_valid_days\": 30}")

  function Or<T>(change: Option<T>, requested: T): T {
    if change.Some? then change.value else requested
  }

  /** The parameters of the changed version; requested refund parameters that carry no
      scope make the call raise, which no stored version does. */
  function ChangedParameters(action: ActionType, changes: Changes, requested: Version): Outcome<Parameters, Error> {
    match action
    case Compensation => Ok(SPELLED_COUPON)
    case Refund =>
      if changes.scope.Some? then Ok(SpelledScope(changes.scope.value))
      else if requested.parameters.RefundParameters? then Ok(SpelledScope(requested.parameters.scope))
      else Err(ActionFailed)
  }

  /** _build_new_version */
  function BuildNewVersion(db: Db, id: Id, kind: DecisionKind, changes: Option<Changes>): Outcome<Option<NewVersion>, Error> {
    if !kind.ApproveChanged? then if changes.Some? then Err(InvalidChanges) else Ok(None)
    else if changes.None? then Err(InvalidChanges)
    else if id !in db.approvals then Err(ApprovalNotFound)
    else if db.approvals[id].proposal !in db.proposals then Err(ProposalNotFound)
    else if db.approvals[id].requestedVersion !in db.versions then Err(DataIntegrity)
    else BuildFrom(db.proposals[db.approvals[id].proposal].action, db.versions[db.approvals[id].requestedVersion], changes.value)
  }

  function BuildFrom(action: ActionType, requested: Version, changes: Changes): Outcome<Option<NewVersion>, Error> {
    if action.Compensation? && changes.scope.Some? then Err(InvalidChanges)
    else if changes.amount.Some? && changes.amount.value <= 0 then Err(InvalidChanges)
    else
      var parameters :- ChangedParameters(action, changes, requested);
      Ok(Some(NewVersion(
        Or(changes.amount, requested.amount), requested.currency, Or(changes.reason, requested.reason),
        Or(changes.reasonText, requested.reasonText), parameters)))
  }

  /** What an administrator submits. */
  datatype Submission = Submission(decider: Id, kind: DecisionKind, comment: Option<string>, changes: Option<Changes>)

  function VerdictOf(submission: Submission, change: Option<NewVersion>): Verdict {
    Verdict(submission.decider, submission.kind, submission.comment, change)
  }

  /** decide_approval up to the stored decision */
  ghost function Submit(db: Db, role: Membership, id: Id, submission: Submission, decisionId: Id, versionId: Id): Transaction<DecisionReply> {
    if role == Outsider then Err(ApprovalNotFound)
    else if role == Member then Err(AdminRequired)
    else
      var change :- BuildNewVersion(db, id, submission.kind, submission.changes);
      DecideApproval(db, id, VerdictOf(submission, change), decisionId, versionId)
  }

  // ---- What a submission asks for --------------------------------------------------------------------

  /** The content that a change c of the requested version r asks for: what c sets is c's, everything
      else is r's.  The currency is never c's, and a coupon is always good for 30 days. */
  predicate Carries(content: NewVersion, action: ActionType, r: Version, c: Changes) {
    && content.amount == (match c.amount case Some(amount) => amount case None => r.amount)
    && content.reason == (match c.reason case Some(reason) => reason case None => r.reason)
    && content.reasonText == (match c.reasonText case Some(text) => text case None => r.reasonText)
    && content.currency == r.currency
    && match action
       case Refund =>
         && content.parameters.RefundParameters? && r.parameters.RefundParameters?
         && content.parameters.scope == (match c.scope case Some(scope) => scope case None => r.parameters.scope)
         && content.parameters.spelling == (if content.parameters.scope.Full? then "{\"refund_scope\": \"full\"}" else "{\"refund_scope\": \"partial\"}")
       case Compensation => content.parameters == CouponParameters(30, "{\"coupon_valid_days\": 30}")
  }

  /** A submission that does not reach the store: only an administrator may decide, changes come with
      a changed approval and no other, and they set no scope on a compensation and no amount that is
      not positive. */
  lemma SubmissionRefused(db: Db, role: Membership, id: Id, submission: Submission, decisionId: Id, versionId: Id)
    requires Reachable(db)
    ensures var (submitted, changed) := (Submit(db, role, id, submission, decisionId, versionId), submission.kind == ApproveChanged);
            && (role == Outsider ==> submitted == Err(ApprovalNotFound))
            && (role == Member ==> submitted == Err(AdminRequired))
            && (role == Admin && changed != submission.changes.Some? ==> submitted == Err(InvalidChanges))
            && (role == Admin && changed && submission.changes.Some? && id !in db.approvals ==> submitted == Err(ApprovalNotFound))
            && (role == Admin && changed && submission.changes.Some? && id in db.approvals ==>
                  && db.approvals[id].proposal in db.proposals
                  && var (action, c) := (db.proposals[db.approvals[id].proposal].action, submission.changes.value);
                  (action.Compensation? && c.scope.Some?) || (c.amount.Some? && c.amount.value <= 0) ==> submitted == Err(InvalidChanges))
  {
    hide Reachable, IsRequest, DecideApproval;
    if id in db.approvals {
      ReachableRequest(db, id);
      RequestRows(db, id);
    }
  }

  lemma RequestRows(db: Db, id: Id)
    requires IsRequest(db, id)
    ensures id in db.approvals && db.approvals[id].proposal in db.proposals && db.approvals[id].requestedVersion in db.versions
  {
  }

  /** Every other submission of an administrator asks the store, with the content that its changes ask
      for, or with none. */
  lemma SubmissionAsks(db: Db, id: Id, submission: Submission, decisionId: Id, versionId: Id) returns (change: Option<NewVersion>)
    requires Reachable(db) && (submission.kind == ApproveChanged <==> submission.changes.Some?)
    requires submission.changes.Some? ==>
               && id in db.approvals
               && var c := submission.changes.value;
               && (c.amount.Some? ==> c.amount.value > 0)
               && (c.scope.Some? ==> db.approvals[id].proposal in db.proposals && db.proposals[db.approvals[id].proposal].action.Refund?)
    ensures Submit(db, Admin, id, submission, decisionId, versionId)
         == DecideApproval(db, id, Verdict(submission.decider, submission.kind, submission.comment, change), decisionId, versionId)
    ensures change.Some? <==> submission.changes.Some?
    ensures change.Some? ==>
              && db.approvals[id].proposal in db.proposals && db.approvals[id].requestedVersion in db.versions
              && Carries(change.value, db.proposals[db.approvals[id].proposal].action, db.versions[db.approvals[id].requestedVersion],
                         submission.changes.value)
  {
    hide Reachable, IsRequest, DecideApproval;
    if submission.changes.Some? {
      ReachableRequest(db, id);
      RequestRows(db, id);
      if db.proposals[db.approvals[id].proposal].action.Refund? {
        ScopeIsThere(db, id);
      }
    }
    change := BuildNewVersion(db, id, submission.kind, submission.changes).value;
  }

  /** A requested refund has its scope. */
  lemma ScopeIsThere(db: Db, id: Id)
    requires Reachable(db) && id in db.approvals && db.approvals[id].proposal in db.proposals && db.approvals[id].requestedVersion in db.versions
    requires db.proposals[db.approvals[id].proposal].action.Refund?
    ensures db.versions[db.approvals[id].requestedVersion].parameters.RefundParameters?
  {
    hide Reachable, Consistent;
    ReachableConsistent(db);
    RequestedFits(db, id);
  }

  lemma RequestedFits(db: Db, id: Id)
    requires Consistent(db) && id in db.approvals
    ensures var v := db.approvals[id].requestedVersion;
            v in db.versions && db.versions[v].proposal == db.approvals[id].proposal && VersionFits(db, v)
  {
  }

  /** What a first changed approval leaves: one new version, which the decision names, of the content
      that the changes ask for; the requested version and every other is as it was. */
  lemma ChangedApprovalRows(db: Db, id: Id, submission: Submission, decisionId: Id, versionId: Id)
    requires Reachable(db) && id !in db.decisions && submission.kind == ApproveChanged
    requires Submit(db, Admin, id, submission, decisionId, versionId).Ok?
    ensures submission.changes.Some? && IsRequest(db, id)
    ensures var (db', reply) := Submit(db, Admin, id, submission, decisionId, versionId).value;
            var (p, r, v) := (db.approvals[id].proposal, db.versions[db.approvals[id].requestedVersion], reply.decision.decidedVersion);
            && v !in db.versions && v in db'.versions && db'.versions == db.versions[v := db'.versions[v]]
            && var row := db'.versions[v];
            && row.proposal == p && IsNextNumber(db, p, row.number) && row.creator == submission.decider
            && Carries(NewVersion(row.amount, row.currency, row.reason, row.reasonText, row.parameters), db.proposals[p].action, r,
                       submission.changes.value)
            && p in db'.proposals && db'.proposals[p] == db.proposals[p].(status := Approved, currentVersion := v)
            && reply.created && db'.decisions == db.decisions[id := reply.decision]
            && reply.decision == Decision(decisionId, ApproveChanged, v, submission.decider, submission.comment)
  {
    hide Reachable, Submit, DecideApproval, IsNextNumber, NormalizeCurrency, IsSound, IsAffordable, Differs;
    SubmissionRefused(db, Admin, id, submission, decisionId, versionId);
    var change := SubmissionAsks(db, id, submission, decisionId, versionId);
    var verdict := Verdict(submission.decider, submission.kind, submission.comment, change);
    FirstDecidedIff(db, id, verdict, decisionId, versionId);
    FirstDecidedRows(db, id, verdict, decisionId, versionId);
  }

  /** A change is built from rows that never change. */
  lemma BuiltAlike(db: Db, db': Db, id: Id, kind: DecisionKind, changes: Option<Changes>)
    requires History(db, db') && References(db) && id in db.approvals
    ensures BuildNewVersion(db', id, kind, changes) == BuildNewVersion(db, id, kind, changes)
  {
    assert ProposalKept(db.proposals[db.approvals[id].proposal], db'.proposals[db.approvals[id].proposal]);
  }

  lemma ApprovalReferences(db: Db, id: Id, verdict: Verdict, decisionId: Id, versionId: Id)
    requires Consistent(db) && DecideApproval(db, id, verdict, decisionId, versionId).Ok?
    ensures References(db) && id in db.approvals
  {
    hide ResolveVersion;
  }

  /** Whatever is submitted after a first decision, and whatever happened in between: a
      submission by a member that builds the content of the first returns the first decision,
      any other is refused, also one that builds nothing, and none changes the store. */
  lemma SubmissionIsFinal(db: Db, id: Id, first: Submission, ids: (Id, Id), later: Db, again: Submission, ids': (Id, Id))
    requires Reachable(db) && id !in db.decisions && Submit(db, Admin, id, first, ids.0, ids.1).Ok?
    requires Leads(Submit(db, Admin, id, first, ids.0, ids.1).value.0, later)
    ensures var change, decision := BuildNewVersion(db, id, first.kind, first.changes).value, Submit(db, Admin, id, first, ids.0, ids.1).value.1.decision;
            Submit(later, Admin, id, again, ids'.0, ids'.1)
            == match BuildNewVersion(db, id, again.kind, again.changes)
               case Ok(change') => FinalAnswer(later, VerdictOf(first, change), VerdictOf(again, change'), decision)
               case Err(error) => Err(error)
  {
    hide Reachable, Leads, Consistent, History, DecideApproval, Exec, BuildNewVersion, References;
    ReachableConsistent(db);
    var steps := RunOf(Submit(db, Admin, id, first, ids.0, ids.1).value.0, later);
    var verdict := VerdictOf(first, BuildNewVersion(db, id, first.kind, first.changes).value);
    var decided := DecideApproval(db, id, verdict, ids.0, ids.1).value.0;
    ApprovalReferences(db, id, verdict, ids.0, ids.1);
    HistorySinceDecision(db, id, verdict, ids, steps);
    BuiltAlike(db, Exec(decided, steps), id, again.kind, again.changes);
    match BuildNewVersion(db, id, again.kind, again.changes)
    case Ok(change') => DecisionIsFinal(db, id, verdict, ids, steps, VerdictOf(again, change'), ids'.0, ids'.1);
    case Err(error) =>
  }

  lemma {:induction false} HistorySinceDecision(db: Db, id: Id, verdict: Verdict, ids: (Id, Id), steps: seq<Step>)
    requires Consistent(db) && DecideApproval(db, id, verdict, ids.0, ids.1).Ok?
    ensures History(db, Exec(DecideApproval(db, id, verdict, ids.0, ids.1).value.0, steps))
  {
    hide Consistent, History, DecideApproval, Exec;
    var decided := DecideApproval(db, id, verdict, ids.0, ids.1).value.0;
    DecideKeeps(db, id, verdict, ids.0, ids.1);
    ConsistentDecisions(db);
    DecisionHistory(db, id, verdict, ids.0, ids.1);
    RunsKeepHistory(decided, steps);
    HistoryTransitive(db, decided, Exec(decided, steps));
  }

  lemma ConsistentDecisions(db: Db)
    requires Consistent(db)
    ensures DecisionsAgree(db) && FlagsAgree(db.runs)
  {
  }

  /** Submitting the same content again, by any administrator, returns the first decision. */
  lemma ResubmissionReplays(db: Db, id: Id, first: Submission, ids: (Id, Id), later: Db, decider: Id, ids': (Id, Id))
    requires Reachable(db) && id !in db.decisions && Submit(db, Admin, id, first, ids.0, ids.1).Ok?
    requires Leads(Submit(db, Admin, id, first, ids.0, ids.1).value.0, later) && decider in later.members
    ensures Submit(later, Admin, id, first.(decider := decider), ids'.0, ids'.1)
         == Ok((later, DecisionReply(false, Submit(db, Admin, id, first, ids.0, ids.1).value.1.decision)))
  {
    hide Reachable, Leads, DecideApproval, BuildNewVersion;
    SubmissionIsFinal(db, id, first, ids, later, first.(decider := decider), ids');
  }

  // ---- Resuming ------------------------------------------------------------------------------

  /** _require_resumable */
  ghost function RequireResumable(db: Db, run: Run): Outcome<(), Error> {
    if run.status == Cancelled then Err(RunStateConflict)
    else if run.status == Failed && !run.errorRetryable then Err(RunStateConflict)
    else if run.status == Awaiting then (
      if run.proposal.None? then Err(RunStateConflict)
      else
        match ApprovalByProposal(db, run.proposal.value)
        case None => Err(ApprovalNotFound)
        case Some(a) => if a in db.decisions then Ok(()) else Err(RunStateConflict))
    else Ok(())
  }

  /** A run that has not succeeded may be resumed exactly when it has not ended and does not
      wait for a decision that is not there yet. */
  lemma ResumableIff(db: Db, run: Id)
    requires Reachable(db) && run in db.runs && db.runs[run].status != Succeeded
    ensures RequireResumable(db, db.runs[run]).Ok? <==>
              && !db.runs[run].completed
              && (db.runs[run].status == Awaiting ==>
                    db.runs[run].proposal.Some? && db.runs[run].proposal.value in db.proposals
                    && db.proposals[db.runs[run].proposal.value].status != AwaitingApproval)
  {
    hide Reachable, Consistent;
    ReachableConsistent(db);
    ResumableFacts(db, run);
    var p := db.runs[run].proposal.value;
    ApprovalOfProposal(db, p);
  }

  lemma ResumableFacts(db: Db, run: Id)
    requires Consistent(db) && run in db.runs
    ensures RunFlagsAgree(db.runs[run])
    ensures db.runs[run].proposal.Some? && db.runs[run].proposal.value in db.proposals
  {
  }

  lemma ApprovalOfProposal(db: Db, p: Id)
    requires Consistent(db) && p in db.proposals
    ensures ApprovalByProposal(db, p).Some?
    ensures ApprovalByProposal(db, p).value in db.decisions <==> db.proposals[p].status != AwaitingApproval
  {
    assert ApprovalByProposal(db, p).Some?;
    assert ApprovalAgrees(db, ApprovalByProposal(db, p).value);
  }
}
