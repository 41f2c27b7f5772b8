/** Replay and retry: what repeated calls of execute come to. */
module ExecutorRetry {
  import opened Outcomes
  import opened ActionModel
  import opened ActionTransactions
  import opened ActionInvariants
  import opened SettlementPreservation
  import opened ActionRuns
  import opened ActionHistory
  import opened ActionMeaning
  import opened ExecutorProgram
  import opened ExecutorMachine
  import opened ExecutorSafety
  import opened ExecutorAlone

  // ---- The chain of an approved run ------------------------------------------------------

  /** p is the proposal of the run and a its approval, decided with an approving decision. */
  ghost predicate IsApproved(db: Db, run: Id, p: Id, a: Id) {
    && run in db.runs && db.runs[run].proposal == Some(p)
    && p in db.proposals
    && a in db.approvals && db.approvals[a].proposal == p
    && a in db.decisions && IsApproving(db.decisions[a].kind)
    && db.decisions[a].decidedVersion in db.versions
  }

  function ChainAt(db: Db, run: Id, p: Id, a: Id): Chain
    requires run in db.runs && p in db.proposals && a in db.decisions && db.decisions[a].decidedVersion in db.versions
  {
    Chain(db.runs[run], p, db.proposals[p], db.decisions[a], db.versions[db.decisions[a].decidedVersion])
  }

  lemma {:induction false} LoadsChain(db: Db, run: Id, p: Id, a: Id)
    requires Consistent(db) && IsApproved(db, run, p, a)
    ensures LoadAll(db, run, AtRun) == Ok(ChainAt(db, run, p, a))
  {
    hide Consistent, LoadAll;
    OneApprovalOf(db, a);
    DecidedFacts(db, a);
    ReadRow(db, run, AtRun);
    ReadRow(db, run, AtProposal(db.runs[run]));
    ReadRow(db, run, AtApproval(db.runs[run], p, db.proposals[p]));
    ReadRow(db, run, AtDecision(db.runs[run], p, db.proposals[p], a, db.approvals[a].status));
    ReadRow(db, run, AtVersion(db.runs[run], p, db.proposals[p], a, db.decisions[a]));
  }

  lemma DecidedFacts(db: Db, a: Id)
    requires Consistent(db) && a in db.decisions && a in db.approvals && db.approvals[a].proposal in db.proposals
    requires IsApproving(db.decisions[a].kind)
    ensures var p, v := db.approvals[a].proposal, db.decisions[a].decidedVersion;
            && db.approvals[a].status in {ApprovedAsIs, ApprovedWithChanges}
            && db.proposals[p].currentVersion == v
            && v in db.versions && db.versions[v].proposal == p
  {
    assert ApprovalAgrees(db, a);
  }

  lemma RunOfProposal(db: Db, run: Id, p: Id)
    requires Consistent(db) && run in db.runs && db.runs[run].proposal == Some(p)
    ensures p in db.proposals && db.proposals[p].run == run
  {
  }

  // ---- Replay ------------------------------------------------------------------------------

  /** After the first success every later call returns the stored result, and writes nothing. */
  lemma ReplayIsStable(db: Db, run: Id, p: Id, a: Id, e: Id, luck: Luck)
    requires Consistent(db) && IsApproved(db, run, p, a)
    requires e in db.executions && db.executions[e].version == db.decisions[a].decidedVersion && db.executions[e].status == Done
    ensures db.executions[e].result.Some?
    ensures var result := db.executions[e].result.value;
            Execute(db, run, luck) == (db, Executed(result.record, result.orderRefunded, true))
  {
    hide Consistent, Finish, LoadAll;
    LoadsChain(db, run, p, a);
    FinishLoads(db, run, luck);
    var chain := ChainAt(db, run, p, a);
    OneExecutionOf(db, e);
    DoneHasResult(db, e);
    Advance(db, run, ToRead(KeyOf(chain), chain), luck);
    FinishLeaving(db, run, KeyOf(chain), Replay(db.executions[e]), luck);
  }

  lemma DoneHasResult(db: Db, e: Id)
    requires Consistent(db) && e in db.executions && db.executions[e].status == Done
    ensures db.executions[e].result.Some?
  {
    assert ExecutionFits(db, e);
  }

  // ---- What every call keeps ------------------------------------------------------------------

  lemma {:induction false} FinishKeeps(db: Db, run: Id, pc: Pc, luck: Luck)
    requires Consistent(db) && ClaimsDecided(db) && PcFits(db, run, pc) && OwnFits(db, pc)
    ensures var db' := Finish(db, run, pc, luck).0; Consistent(db') && ClaimsDecided(db')
    decreases Rank(pc)
  {
    hide Consistent, ClaimsDecided, PcFits, OwnFits, Written, Continue, Linked;
    if !pc.Ended? {
      LinkedOf(db);
      WrittenKeeps(db, pc, luck);
      WrittenClaimsDecided(db, run, pc, luck);
      ContinueFits(db, run, pc, luck);
      ContinueOwns(db, run, pc, luck);
      RankFalls(db, run, pc, luck);
      FinishKeeps(Written(db, pc, luck), run, Continue(db, run, pc, luck), luck);
    }
  }

  lemma LinkedOf(db: Db)
    requires Consistent(db) && ClaimsDecided(db)
    ensures Linked(db)
  {
  }

  lemma ExecuteKeeps(db: Db, run: Id, luck: Luck)
    requires Consistent(db) && ClaimsDecided(db)
    ensures var db' := Execute(db, run, luck).0; Consistent(db') && ClaimsDecided(db')
  {
    hide Consistent, ClaimsDecided, Finish;
    FinishKeeps(db, run, Outside(AtRun), luck);
  }

  // ---- Retry ------------------------------------------------------------------------------------

  /** The run is approved and running, its execution (if any) failed retryably after this
      many attempts, and the active-proposal index lets the proposal execute. */
  ghost predicate Ready(db: Db, run: Id, p: Id, a: Id, attempts: nat) {
    Consistent(db) && ClaimsDecided(db) && MayRun(db, run, p, a, attempts)
  }

  ghost predicate MayRun(db: Db, run: Id, p: Id, a: Id, attempts: nat) {
    && IsApproved(db, run, p, a)
    && db.runs[run].status == Running
    && db.proposals[p].status in {Approved, Executing, ProposalFailed}
    && !ClashesWithActive(db, p)
    && (match ExecutionByVersion(db, db.decisions[a].decidedVersion)
        case None => attempts == 0
        case Some(e) => db.executions[e].status == FailedRetryable && db.executions[e].attempts == attempts)
  }

  /** The execution a call will work on. */
  ghost function TheExecution(db: Db, a: Id, luck: Luck): Id
    requires a in db.decisions
  {
    match ExecutionByVersion(db, db.decisions[a].decidedVersion)
    case Some(e) => e
    case None => luck.newExecution
  }

  /** A new execution needs an unused identifier. */
  ghost predicate FreshExecution(db: Db, a: Id, luck: Luck)
    requires a in db.decisions
  {
    ExecutionByVersion(db, db.decisions[a].decidedVersion).None? ==> luck.newExecution !in db.executions
  }

  /** The row at work, and the tables while the adapter is called. */
  ghost function RunningRow(db: Db, p: Id, a: Id, attempts: nat): Execution
    requires p in db.proposals && a in db.decisions
  {
    var v, action := db.decisions[a].decidedVersion, db.proposals[p].action;
    Execution(p, v, action, Key(p, v, action), InProgress, attempts + 1, None, None, false, false)
  }

  ghost function RunningDb(db: Db, run: Id, p: Id, a: Id, e: Id, attempts: nat): Db
    requires p in db.proposals && a in db.decisions
  {
    db.(executions := db.executions[e := RunningRow(db, p, a, attempts)],
        proposals := db.proposals[p := db.proposals[p].(status := Executing)],
        audit := db.audit + [AuditEntry(run, Some(p), System, ExecutionClaimed, ExecutionResource(e))])
  }

  lemma ReadyRows(db: Db, run: Id, p: Id, a: Id, attempts: nat)
    requires Ready(db, run, p, a, attempts)
    ensures db.proposals[p].run == run
    ensures var v := db.decisions[a].decidedVersion; db.versions[v].proposal == p
    ensures ParametersFit(db.proposals[p].action, db.versions[db.decisions[a].decidedVersion].parameters)
    ensures var key := KeyOf(ChainAt(db, run, p, a));
            && ExecutionByKey(db, key) == ExecutionByVersion(db, key.version)
            && (ExecutionByKey(db, key).Some? ==>
                  var ex := db.executions[ExecutionByKey(db, key).value];
                  ChainMatches(ex, p, key.version, key.action) && ex.key == key && ex.result.None?)
  {
    hide Consistent, ClaimsDecided;
    RunOfProposal(db, run, p);
    DecidedFacts(db, a);
    KeyAndVersion(db, KeyOf(ChainAt(db, run, p, a)));
    VersionParameters(db, db.decisions[a].decidedVersion);
  }

  lemma VersionParameters(db: Db, v: Id)
    requires Consistent(db) && v in db.versions && db.versions[v].proposal in db.proposals
    ensures ParametersFit(db.proposals[db.versions[v].proposal].action, db.versions[v].parameters)
  {
    assert VersionFits(db, v);
  }

  /** Looking an execution up by key and by version finds the same row. */
  lemma KeyAndVersion(db: Db, key: Key)
    requires Consistent(db) && ClaimsDecided(db)
    requires key.version in db.versions && db.versions[key.version].proposal == key.proposal
    requires key.proposal in db.proposals && db.proposals[key.proposal].action == key.action
    ensures ExecutionByKey(db, key) == ExecutionByVersion(db, key.version)
    ensures ExecutionByKey(db, key).Some? ==>
              var ex := db.executions[ExecutionByKey(db, key).value];
              ChainMatches(ex, key.proposal, key.version, key.action) && ex.key == key && (ex.result.Some? ==> ex.status == Done)
  {
    hide Consistent, ClaimsDecided, ExecutionByKey, ExecutionByVersion;
    if e :| e in db.executions && db.executions[e].version == key.version {
      ClaimedFacts(db, e);
      OneExecutionOf(db, e);
      OneKeyOf(db, e);
    } else if ExecutionByKey(db, key).Some? {
      ClaimedFacts(db, ExecutionByKey(db, key).value);
    }
  }

  lemma ClaimedFacts(db: Db, e: Id)
    requires Consistent(db) && ClaimsDecided(db) && e in db.executions
    ensures var ex := db.executions[e];
            && ex.key == Key(ex.proposal, ex.version, ex.action)
            && ex.version in db.versions && db.versions[ex.version].proposal == ex.proposal
            && ex.proposal in db.proposals && db.proposals[ex.proposal].action == ex.action
            && (ex.result.Some? ==> ex.status == Done)
  {
    assert ExecutionFits(db, e) && ClaimDecided(db, db.executions[e]);
  }

  lemma OneKeyOf(db: Db, e: Id)
    requires Consistent(db) && e in db.executions
    ensures ExecutionByKey(db, db.executions[e].key) == Some(e)
  {
  }

  // ---- One attempt ------------------------------------------------------------------------------

  /** The call claims its execution and marks it running. */
  lemma {:induction false} ClaimPhase(db: Db, run: Id, p: Id, a: Id, attempts: nat, luck: Luck)
    requires Ready(db, run, p, a, attempts) && FreshExecution(db, a, luck)
    ensures var e, chain := TheExecution(db, a, luck), ChainAt(db, run, p, a);
            Execute(db, run, luck) == Finish(RunningDb(db, run, p, a, e, attempts), run, ToAdapt(KeyOf(chain), chain, e), luck)
  {
    hide Consistent, ClaimsDecided, Finish, LoadAll, Apply, ClaimExecution;
    var e, chain := TheExecution(db, a, luck), ChainAt(db, run, p, a);
    var key := KeyOf(chain);
    LoadsChain(db, run, p, a);
    FinishLoads(db, run, luck);
    Advance(db, run, ToRead(key, chain), luck);
    ReadySteps(db, run, p, a, attempts, luck);
    Advance(db, run, ToClaim(key, chain), luck);
    var claimed := ClaimedDb(db, run, p, a, e, attempts);
    Advance(claimed, run, ToMark(key, chain, e), luck);
    MarkStep(db, run, p, a, e, attempts, luck);
  }

  ghost function ClaimedDb(db: Db, run: Id, p: Id, a: Id, e: Id, attempts: nat): Db
    requires p in db.proposals && a in db.decisions
  {
    RunningDb(db, run, p, a, e, attempts).(executions := db.executions[e := RunningRow(db, p, a, attempts).(status := Claimed)])
  }

  lemma ReadySteps(db: Db, run: Id, p: Id, a: Id, attempts: nat, luck: Luck)
    requires Ready(db, run, p, a, attempts) && FreshExecution(db, a, luck)
    ensures var e, chain := TheExecution(db, a, luck), ChainAt(db, run, p, a);
            && Continue(db, run, ToRead(KeyOf(chain), chain), luck) == ToClaim(KeyOf(chain), chain)
            && Continue(db, run, ToClaim(KeyOf(chain), chain), luck) == ToMark(KeyOf(chain), chain, e)
            && Written(db, ToClaim(KeyOf(chain), chain), luck) == ClaimedDb(db, run, p, a, e, attempts)
  {
    hide Consistent, ClaimsDecided, ClaimExecution;
    ReadyClaims(db, run, p, a, attempts, luck);
  }

  lemma ReadyClaims(db: Db, run: Id, p: Id, a: Id, attempts: nat, luck: Luck)
    requires Ready(db, run, p, a, attempts) && FreshExecution(db, a, luck)
    ensures var key := KeyOf(ChainAt(db, run, p, a));
            ClaimExecution(db, p, key.version, key.action, key, luck.newExecution) == FirstClaim(db, run, p, a, attempts, luck)
  {
    hide Consistent, ClaimsDecided, ExecutionByKey, ExecutionByVersion, StoreClaim;
    ReadyRows(db, run, p, a, attempts);
    var e, row := TheExecution(db, a, luck), RunningRow(db, p, a, attempts).(status := Claimed);
    StoreClaimWrites(db, run, p, e, row);
    match ExecutionByVersion(db, db.decisions[a].decidedVersion)
    case Some(_) => assert row == Reclaimed(db.executions[e]);
    case None =>
  }

  ghost function FirstClaim(db: Db, run: Id, p: Id, a: Id, attempts: nat, luck: Luck): Transaction<Claim>
    requires p in db.proposals && a in db.decisions
  {
    var e := TheExecution(db, a, luck);
    Ok((ClaimedDb(db, run, p, a, e, attempts), Claim(e, RunningRow(db, p, a, attempts).(status := Claimed), true)))
  }

  lemma StoreClaimWrites(db: Db, run: Id, p: Id, e: Id, row: Execution)
    requires p in db.proposals && row.proposal == p && db.proposals[p].run == run && run in db.runs
    requires db.proposals[p].status in {Approved, Executing, ProposalFailed} && !ClashesWithActive(db, p)
    ensures StoreClaim(db, e, row, {Approved, Executing, ProposalFailed})
         == Ok((db.(executions := db.executions[e := row],
                    proposals := db.proposals[p := db.proposals[p].(status := Executing)],
                    audit := db.audit + [AuditEntry(run, Some(p), System, ExecutionClaimed, ExecutionResource(e))]),
                Claim(e, row, true)))
  {
    var written := db.(executions := db.executions[e := row]);
    assert !ClashesWithActive(written, p);
  }

  lemma MarkStep(db: Db, run: Id, p: Id, a: Id, e: Id, attempts: nat, luck: Luck)
    requires IsApproved(db, run, p, a)
    ensures var chain, claimed := ChainAt(db, run, p, a), ClaimedDb(db, run, p, a, e, attempts);
            && Continue(claimed, run, ToMark(KeyOf(chain), chain, e), luck) == ToAdapt(KeyOf(chain), chain, e)
            && Written(claimed, ToMark(KeyOf(chain), chain, e), luck) == RunningDb(db, run, p, a, e, attempts)
  {
  }

  // ---- An attempt that fails, and the resumption after it -----------------------------------------

  const RETRYABLE_CODE := ErrorCode(RetryableFailure)

  ghost function FailedDb(db: Db, run: Id, p: Id, a: Id, e: Id, attempts: nat): Db
    requires run in db.runs && p in db.proposals && a in db.decisions
  {
    db.(executions := db.executions[e := FailedExecution(RunningRow(db, p, a, attempts), RETRYABLE_CODE, true)],
        proposals := db.proposals[p := db.proposals[p].(status := ProposalFailed)],
        runs := db.runs[run := RunMoved(db.runs[run], Failed, Some(RETRYABLE_CODE), true)],
        audit := RunningDb(db, run, p, a, e, attempts).audit + [
          AuditEntry(run, Some(p), System, ExecutionFailed, ExecutionResource(e)),
          AuditEntry(run, Some(p), System, RunFailed, RunResource(run))])
  }

  lemma {:induction false} FailPhase(db: Db, run: Id, p: Id, a: Id, e: Id, attempts: nat, luck: Luck)
    requires IsApproved(db, run, p, a) && luck.adapterFails
    requires db.proposals[p].run == run && db.runs[run].status == Running
    requires ParametersFit(db.proposals[p].action, db.versions[db.decisions[a].decidedVersion].parameters)
    ensures var chain := ChainAt(db, run, p, a);
            Finish(RunningDb(db, run, p, a, e, attempts), run, ToAdapt(KeyOf(chain), chain, e), luck)
            == (FailedDb(db, run, p, a, e, attempts), Raised(RetryableFailure))
  {
    hide Finish, RecordFailure;
    var chain, running := ChainAt(db, run, p, a), RunningDb(db, run, p, a, e, attempts);
    var key := KeyOf(chain);
    Advance(running, run, ToAdapt(key, chain, e), luck);
    FailureWrites(db, run, p, a, e, attempts);
    Advance(running, run, ToFail(key, chain, e, RetryableFailure, true), luck);
    FinishLeaving(FailedDb(db, run, p, a, e, attempts), run, key, Raised(RetryableFailure), luck);
  }

  lemma FailureWrites(db: Db, run: Id, p: Id, a: Id, e: Id, attempts: nat)
    requires IsApproved(db, run, p, a) && db.proposals[p].run == run && db.runs[run].status == Running
    ensures RecordFailure(RunningDb(db, run, p, a, e, attempts), e, RETRYABLE_CODE, true)
         == Ok((FailedDb(db, run, p, a, e, attempts), FailedExecution(RunningRow(db, p, a, attempts), RETRYABLE_CODE, true)))
  {
    hide EndFailed, FailureAudited;
    var running := RunningDb(db, run, p, a, e, attempts);
    var row := FailedExecution(RunningRow(db, p, a, attempts), RETRYABLE_CODE, true);
    var written := running.(executions := running.executions[e := row]);
    assert written.executions == db.executions[e := row];
    EndFailedWrites(written, run, p);
    var failed := FailedDb(db, run, p, a, e, attempts);
    assert written.proposals[p := written.proposals[p].(status := ProposalFailed)] == failed.proposals;
    FailureAuditedWrites(failed.(audit := running.audit), run, p, e);
  }

  lemma EndFailedWrites(db: Db, run: Id, p: Id)
    requires run in db.runs && db.runs[run].status == Running && p in db.proposals && db.proposals[p].status == Executing
    ensures EndFailed(db, p, run, {Queued, Running, Awaiting, Failed}, RETRYABLE_CODE, true)
         == Ok(db.(proposals := db.proposals[p := db.proposals[p].(status := ProposalFailed)],
                   runs := db.runs[run := RunMoved(db.runs[run], Failed, Some(RETRYABLE_CODE), true)]))
  {
  }

  lemma FailureAuditedWrites(db: Db, run: Id, p: Id, e: Id)
    requires run in db.runs && p in db.proposals && db.proposals[p].run == run
    ensures FailureAudited(db, p, run, e)
         == Ok(db.(audit := db.audit + [
              AuditEntry(run, Some(p), System, ExecutionFailed, ExecutionResource(e)),
              AuditEntry(run, Some(p), System, RunFailed, RunResource(run))]))
  {
    assert (db.audit + [AuditEntry(run, Some(p), System, ExecutionFailed, ExecutionResource(e))])
         + [AuditEntry(run, Some(p), System, RunFailed, RunResource(run))]
        == db.audit + [AuditEntry(run, Some(p), System, ExecutionFailed, ExecutionResource(e)),
                       AuditEntry(run, Some(p), System, RunFailed, RunResource(run))];
  }

  /** The workflow resumes a retryably failed run by moving it back to running. */
  const RESUMPTION := Transition({Failed}, Running, None, false, System, OtherEvent("run_resumed"), true)

  ghost function Resumed(db: Db, run: Id): Db {
    Committed(db, TransitionRun(db, run, RESUMPTION))
  }

  ghost function ResumedDb(db: Db, run: Id, p: Id, a: Id, e: Id, attempts: nat): Db
    requires run in db.runs && p in db.proposals && a in db.decisions
  {
    var failed := FailedDb(db, run, p, a, e, attempts);
    failed.(runs := db.runs[run := RunMoved(db.runs[run], Running, None, false)],
            audit := failed.audit + [AuditEntry(run, Some(p), System, OtherEvent("run_resumed"), RunResource(run))])
  }

  lemma ResumptionWrites(db: Db, run: Id, p: Id, a: Id, e: Id, attempts: nat)
    requires IsApproved(db, run, p, a) && db.proposals[p].run == run
    ensures Resumed(FailedDb(db, run, p, a, e, attempts), run) == ResumedDb(db, run, p, a, e, attempts)
  {
    var failed, resumed := FailedDb(db, run, p, a, e, attempts), ResumedDb(db, run, p, a, e, attempts);
    assert failed.runs[run := RunMoved(failed.runs[run], Running, None, false)] == resumed.runs;
  }

  /** One failed attempt and one resumption: ready again, one attempt more, no money moved. */
  lemma FailedCycle(db: Db, run: Id, p: Id, a: Id, attempts: nat, luck: Luck)
    requires Ready(db, run, p, a, attempts) && FreshExecution(db, a, luck) && luck.adapterFails
    ensures Execute(db, run, luck).1 == Raised(RetryableFailure)
    ensures var resumed := Resumed(Execute(db, run, luck).0, run);
            && Ready(resumed, run, p, a, attempts + 1)
            && ExecutionByVersion(resumed, db.decisions[a].decidedVersion).Some?
            && SameMoney(db, resumed, p)
  {
    hide Consistent, ClaimsDecided, Finish, TransitionRun;
    var e := TheExecution(db, a, luck);
    ReadyRows(db, run, p, a, attempts);
    ClaimPhase(db, run, p, a, attempts, luck);
    FailPhase(db, run, p, a, e, attempts, luck);
    ResumptionWrites(db, run, p, a, e, attempts);
    ExecuteKeeps(db, run, luck);
    ResumptionKeeps(Execute(db, run, luck).0, run);
    ReadyAgain(db, run, p, a, e, attempts);
  }

  predicate SameMoney(db: Db, db': Db, p: Id)
    requires p in db.proposals
  {
    && db'.orders == db.orders && db'.refunds == db.refunds && db'.compensations == db.compensations
    && db'.versions == db.versions && db'.decisions == db.decisions
    && p in db'.proposals && db'.proposals[p].order == db.proposals[p].order && db'.proposals[p].action == db.proposals[p].action
  }

  lemma ResumptionKeeps(db: Db, run: Id)
    requires Consistent(db) && ClaimsDecided(db)
    ensures Consistent(Resumed(db, run)) && ClaimsDecided(Resumed(db, run))
  {
    hide Consistent, ClaimsDecided, TransitionRun;
    var step := Move(run, RESUMPTION);
    StepKeeps(db, step);
    ApplyKeeps(db, step);
    TransitionKeepsExecutions(db, run, RESUMPTION);
    ClaimsKept(db, Resumed(db, run));
  }

  lemma ReadyAgain(db: Db, run: Id, p: Id, a: Id, e: Id, attempts: nat)
    requires IsApproved(db, run, p, a) && !ClashesWithActive(db, p)
    requires Consistent(ResumedDb(db, run, p, a, e, attempts)) && ClaimsDecided(ResumedDb(db, run, p, a, e, attempts))
    ensures Ready(ResumedDb(db, run, p, a, e, attempts), run, p, a, attempts + 1)
    ensures ExecutionByVersion(ResumedDb(db, run, p, a, e, attempts), db.decisions[a].decidedVersion) == Some(e)
  {
    hide Consistent, ClaimsDecided;
    var resumed := ResumedDb(db, run, p, a, e, attempts);
    OneExecutionOf(resumed, e);
    assert !ClashesWithActive(resumed, p);
  }

  // ---- An attempt that succeeds --------------------------------------------------------------------

  /** The limits of the order permit the amount, in sums, and the record identifier is unused. */
  predicate Permitted(db: Db, s: Settlement) {
    && s.order in db.orders && IsPayable(db, s)
    && forall i :: 0 <= i < |RecordsOf(db, s.action)| ==> RecordsOf(db, s.action)[i].id != s.record
  }

  /** The settlement pays back the last of the order. */
  predicate LeavesNothing(db: Db, s: Settlement) {
    s.action.Refund? && s.order in db.orders && s.amount == db.orders[s.order].total - SumFor(db.refunds, s.order)
  }

  lemma PayableChecks(db: Db, s: Settlement)
    requires s.order in db.orders && IsPayable(db, s)
    ensures CheckSettlement(db, s) == Ok(LeavesNothing(db, s))
  {
    hide SumFor;
  }

  lemma SuccessPhase(db: Db, run: Id, p: Id, a: Id, attempts: nat, luck: Luck)
    requires Ready(db, run, p, a, attempts) && FreshExecution(db, a, luck) && !luck.adapterFails
    requires Permitted(db, SettlementOf(ChainAt(db, run, p, a), luck.record))
    ensures var e, s := TheExecution(db, a, luck), SettlementOf(ChainAt(db, run, p, a), luck.record);
            var running, refunded := RunningDb(db, run, p, a, e, attempts), LeavesNothing(db, s);
            && Settles(running, e, s, refunded)
            && Execute(db, run, luck) == (SettledDb(running, e, s, refunded), Executed(luck.record, refunded, false))
  {
    hide Ready, Finish, RecordSuccess, LeavesNothing, SettledDb, Settles;
    ReadyApproved(db, run, p, a, attempts);
    var e, chain := TheExecution(db, a, luck), ChainAt(db, run, p, a);
    var s, running := SettlementOf(chain, luck.record), RunningDb(db, run, p, a, e, attempts);
    ReadyRows(db, run, p, a, attempts);
    ClaimPhase(db, run, p, a, attempts, luck);
    Advance(running, run, ToAdapt(KeyOf(chain), chain, e), luck);
    Advance(running, run, ToRecord(KeyOf(chain), chain, e, luck.record), luck);
    ReadySettles(db, run, p, a, attempts, luck);
    var refunded := LeavesNothing(db, s);
    FinishLeaving(SettledDb(running, e, s, refunded), run, KeyOf(chain), Executed(luck.record, refunded, false), luck);
  }

  lemma ReadySettles(db: Db, run: Id, p: Id, a: Id, attempts: nat, luck: Luck)
    requires Ready(db, run, p, a, attempts) && FreshExecution(db, a, luck)
    requires Permitted(db, SettlementOf(ChainAt(db, run, p, a), luck.record))
    ensures var e, s := TheExecution(db, a, luck), SettlementOf(ChainAt(db, run, p, a), luck.record);
            var running, refunded := RunningDb(db, run, p, a, e, attempts), LeavesNothing(db, s);
            && Settles(running, e, s, refunded)
            && RecordSuccess(running, e, s) == Ok((SettledDb(running, e, s, refunded), Success(e, luck.record, refunded)))
  {
    hide Consistent, ClaimsDecided, RecordSuccess;
    var e, s := TheExecution(db, a, luck), SettlementOf(ChainAt(db, run, p, a), luck.record);
    PayableChecks(db, s);
    var running, refunded := RunningDb(db, run, p, a, e, attempts), LeavesNothing(db, s);
    ReadyRows(db, run, p, a, attempts);
    SettlementFacts(db, run, p, a, attempts, luck);
    SettlesSucceeds(running, e, s, refunded);
  }

  lemma SettlementFacts(db: Db, run: Id, p: Id, a: Id, attempts: nat, luck: Luck)
    requires Ready(db, run, p, a, attempts) && FreshExecution(db, a, luck)
    requires Permitted(db, SettlementOf(ChainAt(db, run, p, a), luck.record))
    ensures var e, s := TheExecution(db, a, luck), SettlementOf(ChainAt(db, run, p, a), luck.record);
            && !HasRecordFor(RecordsOf(db, s.action), s.record, e, s.version)
            && s.amount > 0 && s.currency == db.orders[s.order].currency
  {
    hide Consistent, ClaimsDecided;
    var e, s := TheExecution(db, a, luck), SettlementOf(ChainAt(db, run, p, a), luck.record);
    ReadyRows(db, run, p, a, attempts);
    VersionMoney(db, s.version);
    forall i | 0 <= i < |RecordsOf(db, s.action)|
      ensures RecordsOf(db, s.action)[i].execution != e && RecordsOf(db, s.action)[i].version != s.version
    {
      RecordExecution(db, s.action, i);
      if RecordsOf(db, s.action)[i].version == s.version {
        OneExecutionOf(db, RecordsOf(db, s.action)[i].execution);
      }
    }
  }

  lemma VersionMoney(db: Db, v: Id)
    requires Consistent(db) && v in db.versions
    ensures var version := db.versions[v];
            && version.amount > 0 && version.proposal in db.proposals && db.proposals[version.proposal].order in db.orders
            && version.currency == db.orders[db.proposals[version.proposal].order].currency
  {
    assert VersionFits(db, v);
  }

  lemma RecordExecution(db: Db, action: ActionType, i: nat)
    requires Consistent(db) && i < |RecordsOf(db, action)|
    ensures var record := RecordsOf(db, action)[i];
            && record.execution in db.executions && db.executions[record.execution].status == Done
            && db.executions[record.execution].version == record.version
  {
    assert RecordFits(db, action, RecordsOf(db, action)[i]);
  }

  lemma SettlesSucceeds(db: Db, e: Id, s: Settlement, refunded: bool)
    requires Settles(db, e, s, refunded) && CouponArgumentFits(s) && s.currency == db.orders[s.order].currency
    ensures RecordSuccess(db, e, s) == Ok((SettledDb(db, e, s, refunded), Success(e, s.record, refunded)))
  {
  }

  // ---- Any number of failures, then success -----------------------------------------------------------

  /** Failing attempts, each followed by a resumption. */
  ghost function Cycles(db: Db, run: Id, lucks: seq<Luck>): Db {
    if lucks == [] then db
    else Resumed(Execute(Cycles(db, run, lucks[..|lucks| - 1]), run, lucks[|lucks| - 1]).0, run)
  }

  lemma {:induction false} CyclesStayReady(db: Db, run: Id, p: Id, a: Id, attempts: nat, lucks: seq<Luck>)
    requires Ready(db, run, p, a, attempts) && forall i :: 0 <= i < |lucks| ==> lucks[i].adapterFails
    requires lucks != [] ==> FreshExecution(db, a, lucks[0])
    ensures var now := Cycles(db, run, lucks);
            && Ready(now, run, p, a, attempts + |lucks|)
            && SameMoney(db, now, p)
            && (lucks != [] ==> ExecutionByVersion(now, db.decisions[a].decidedVersion).Some?)
  {
    hide Ready, Execute, Resumed;
    if lucks == [] {
      ReadyApproved(db, run, p, a, attempts);
    } else {
      var before := lucks[..|lucks| - 1];
      CyclesStayReady(db, run, p, a, attempts, before);
      ReadyApproved(Cycles(db, run, before), run, p, a, attempts + |before|);
      FailedCycle(Cycles(db, run, before), run, p, a, attempts + |before|, lucks[|lucks| - 1]);
    }
  }

  lemma ReadyApproved(db: Db, run: Id, p: Id, a: Id, attempts: nat)
    requires Ready(db, run, p, a, attempts)
    ensures IsApproved(db, run, p, a)
  {
  }

  /** What a run that ends in success leaves: one finished execution with its number of
      attempts, one more record, a succeeded proposal and a succeeded run. */
  ghost predicate EndsIn(db: Db, final: Db, run: Id, p: Id, a: Id, attempts: nat, s: Settlement)
    requires a in db.decisions
  {
    && (exists e :: EndsWith(db, final, db.decisions[a].decidedVersion, e, attempts, s))
    && p in final.proposals && final.proposals[p].status == ProposalSucceeded
    && run in final.runs && final.runs[run].status == Succeeded
  }

  /** The execution of the version is finished, its record is the one new record of its table,
      the other table is as it was, and the order is marked refunded exactly if nothing is left. */
  ghost predicate EndsWith(db: Db, final: Db, version: Id, e: Id, attempts: nat, s: Settlement) {
    && ExecutionByVersion(final, version) == Some(e)
    && IsFinished(final, e, attempts, ExecutionResult(s.record, LeavesNothing(db, s)))
    && s.order in db.orders
    && final.orders == (if LeavesNothing(db, s) then db.orders[s.order := db.orders[s.order].(status := OrderStatus.Refunded)] else db.orders)
    && RecordsOf(final, s.action) == RecordsOf(db, s.action) + [SettlementRecord(e, s)]
    && RecordsOf(final, OtherAction(s.action)) == RecordsOf(db, OtherAction(s.action))
  }

  function OtherAction(action: ActionType): ActionType {
    if action.Refund? then Compensation else Refund
  }

  predicate IsFinished(db: Db, e: Id, attempts: nat, result: ExecutionResult) {
    e in db.executions && db.executions[e].status == Done && db.executions[e].attempts == attempts && db.executions[e].result == Some(result)
  }

  /** With an adapter that fails retryably any number of times, and limits and the active
      index still permitting, the same number of resumptions and one more call succeed:
      one record, and one attempt for every call. */
  lemma {:induction false} RetriesSucceed(db: Db, run: Id, p: Id, a: Id, attempts: nat, lucks: seq<Luck>, last: Luck)
    requires Ready(db, run, p, a, attempts) && (forall i :: 0 <= i < |lucks| ==> lucks[i].adapterFails) && !last.adapterFails
    requires FreshExecution(db, a, (lucks + [last])[0])
    requires Permitted(db, SettlementOf(ChainAt(db, run, p, a), last.record))
    ensures var s := SettlementOf(ChainAt(db, run, p, a), last.record);
            var (final, ending) := Execute(Cycles(db, run, lucks), run, last);
            && ending == Executed(last.record, LeavesNothing(db, s), false)
            && EndsIn(db, final, run, p, a, attempts + |lucks| + 1, s)
  {
    hide Ready, Execute, Cycles, EndsIn, LeavesNothing, Permitted;
    var now := Cycles(db, run, lucks);
    CyclesStayReady(db, run, p, a, attempts, lucks);
    ReadyApproved(db, run, p, a, attempts);
    LastIsFresh(db, run, a, lucks, last);
    ReadyApproved(now, run, p, a, attempts + |lucks|);
    SamePermission(db, now, run, p, a, last.record);
    SuccessEnds(now, run, p, a, attempts + |lucks|, last);
    SameEnd(db, now, Execute(now, run, last).0, run, p, a, attempts + |lucks| + 1, SettlementOf(ChainAt(db, run, p, a), last.record));
  }

  lemma {:induction false} LastIsFresh(db: Db, run: Id, a: Id, lucks: seq<Luck>, last: Luck)
    requires a in db.decisions && FreshExecution(db, a, (lucks + [last])[0])
    requires var now := Cycles(db, run, lucks);
             now.decisions == db.decisions && (lucks != [] ==> ExecutionByVersion(now, db.decisions[a].decidedVersion).Some?)
    ensures FreshExecution(Cycles(db, run, lucks), a, last)
  {
    hide Execute;
    if lucks == [] {
      assert (lucks + [last])[0] == last;
    }
  }

  lemma SamePermission(db: Db, now: Db, run: Id, p: Id, a: Id, record: Id)
    requires IsApproved(db, run, p, a) && IsApproved(now, run, p, a) && SameMoney(db, now, p)
    requires Permitted(db, SettlementOf(ChainAt(db, run, p, a), record))
    ensures var s := SettlementOf(ChainAt(db, run, p, a), record);
            && SettlementOf(ChainAt(now, run, p, a), record) == s
            && Permitted(now, s) && LeavesNothing(now, s) == LeavesNothing(db, s)
  {
    var s := SettlementOf(ChainAt(db, run, p, a), record);
    assert RecordsOf(now, s.action) == RecordsOf(db, s.action);
  }

  lemma SameEnd(db: Db, now: Db, final: Db, run: Id, p: Id, a: Id, attempts: nat, s: Settlement)
    requires IsApproved(db, run, p, a) && SameMoney(db, now, p) && EndsIn(now, final, run, p, a, attempts, s)
    ensures EndsIn(db, final, run, p, a, attempts, s)
  {
    assert RecordsOf(now, s.action) == RecordsOf(db, s.action);
    var e :| EndsWith(now, final, now.decisions[a].decidedVersion, e, attempts, s);
    assert EndsWith(db, final, db.decisions[a].decidedVersion, e, attempts, s);
  }

  lemma SuccessEnds(db: Db, run: Id, p: Id, a: Id, attempts: nat, luck: Luck)
    requires Ready(db, run, p, a, attempts) && FreshExecution(db, a, luck) && !luck.adapterFails
    requires IsApproved(db, run, p, a)
    requires Permitted(db, SettlementOf(ChainAt(db, run, p, a), luck.record))
    ensures var s := SettlementOf(ChainAt(db, run, p, a), luck.record);
            var (final, ending) := Execute(db, run, luck);
            && ending == Executed(luck.record, LeavesNothing(db, s), false)
            && EndsIn(db, final, run, p, a, attempts + 1, s)
  {
    hide Ready, Execute, Settles, LeavesNothing, SettledDb, RunningDb, Consistent, ClaimsDecided, EndsIn;
    var e, s := TheExecution(db, a, luck), SettlementOf(ChainAt(db, run, p, a), luck.record);
    SuccessPhase(db, run, p, a, attempts, luck);
    ReadyConsistent(db, run, p, a, attempts);
    ExecuteKeeps(db, run, luck);
    SettledEnds(db, run, p, a, e, attempts, s, LeavesNothing(db, s));
  }

  lemma ReadyConsistent(db: Db, run: Id, p: Id, a: Id, attempts: nat)
    requires Ready(db, run, p, a, attempts)
    ensures Consistent(db) && ClaimsDecided(db) && db.proposals[p].run == run
  {
    RunOfProposal(db, run, p);
  }

  lemma SettledEnds(db: Db, run: Id, p: Id, a: Id, e: Id, attempts: nat, s: Settlement, refunded: bool)
    requires IsApproved(db, run, p, a) && db.proposals[p].run == run && s.proposal == p
    requires Settles(RunningDb(db, run, p, a, e, attempts), e, s, refunded)
    requires Consistent(SettledDb(RunningDb(db, run, p, a, e, attempts), e, s, refunded)) && refunded == LeavesNothing(db, s)
    ensures EndsIn(db, SettledDb(RunningDb(db, run, p, a, e, attempts), e, s, refunded), run, p, a, attempts + 1, s)
  {
    hide Consistent;
    var final := SettledDb(RunningDb(db, run, p, a, e, attempts), e, s, refunded);
    OneExecutionOf(final, e);
    assert IsFinished(final, e, attempts + 1, ExecutionResult(s.record, refunded));
    assert RecordsOf(final, s.action) == RecordsOf(db, s.action) + [SettlementRecord(e, s)];
    assert EndsWith(db, final, db.decisions[a].decidedVersion, e, attempts + 1, s);
  }

  /** Once an execution is done, every call of execute answers with its result and writes
      nothing, whatever else has happened since. */
  lemma {:induction false} ReplayAfterAnything(db: Db, run: Id, p: Id, a: Id, e: Id, steps: seq<Step>, luck: Luck)
    requires Consistent(db) && IsApproved(db, run, p, a)
    requires e in db.executions && db.executions[e].version == db.decisions[a].decidedVersion && db.executions[e].status == Done
    ensures db.executions[e].result.Some?
    ensures var later, result := Exec(db, steps), db.executions[e].result.value;
            Execute(later, run, luck) == (later, Executed(result.record, result.orderRefunded, true))
  {
    hide Consistent, Exec, Execute, History;
    DoneHasResult(db, e);
    RunsKeepConsistency(db, steps);
    RunsKeepHistory(db, steps);
    ApprovedKept(db, Exec(db, steps), run, p, a, e);
    ReplayIsStable(Exec(db, steps), run, p, a, e, luck);
  }

  lemma ApprovedKept(db: Db, db': Db, run: Id, p: Id, a: Id, e: Id)
    requires History(db, db') && IsApproved(db, run, p, a) && e in db.executions && db.executions[e].status == Done
    ensures IsApproved(db', run, p, a) && db'.decisions[a] == db.decisions[a]
    ensures e in db'.executions && db'.executions[e] == db.executions[e]
  {
    assert ExecutionKept(db.executions[e], db'.executions[e]);
    assert RunKept(db.runs[run], db'.runs[run]);
  }
}
