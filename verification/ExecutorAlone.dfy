/** One call of execute with nothing in between: the meaning of the program of
    ExecutorProgram, and the executor object that carries it out. */
module ExecutorAlone {
  import opened Outcomes
  import opened ActionModel
  import opened ActionTransactions
  import opened ActionInvariants
  import opened ActionStore
  import opened ExecutorProgram

  function LoadRank(load: Load): nat {
    match load
    case AtRun => 5
    case AtProposal(_) => 4
    case AtApproval(_, _, _) => 3
    case AtDecision(_, _, _, _, _) => 2
    case AtVersion(_, _, _, _, _) => 1
  }

  function Rank(pc: Pc): nat {
    match pc
    case Outside(load) => 20 + LoadRank(load)
    case Waiting(_) => 20
    case Inside(_, load) => 10 + LoadRank(load)
    case ToRead(_, _) => 9
    case ToClaim(_, _) => 8
    case ToReclaim(_, _, _) => 7
    case ToMark(_, _, _) => 6
    case ToAdapt(_, _, _) => 5
    case ToRecord(_, _, _, _) => 4
    case ToFail(_, _, _, _, _) => 3
    case Leaving(_, _) => 2
    case Ended(_) => 1
  }

  /** Every step brings a call closer to its end: a call makes at most 24 steps. */
  lemma RankFalls(db: Db, run: Id, pc: Pc, luck: Luck)
    requires !pc.Ended?
    ensures Rank(Continue(db, run, pc, luck)) < Rank(pc)
  {
  }

  ghost function Finish(db: Db, run: Id, pc: Pc, luck: Luck): (Db, Ending)
    decreases Rank(pc)
  {
    if pc.Ended? then (db, pc.ending)
    else
      RankFalls(db, run, pc, luck);
      Finish(Written(db, pc, luck), run, Continue(db, run, pc, luck), luck)
  }

  /** A call of execute that nothing interrupts. */
  ghost function Execute(db: Db, run: Id, luck: Luck): (Db, Ending) {
    Finish(db, run, Outside(AtRun), luck)
  }

  ghost function LoadAll(db: Db, run: Id, load: Load): Outcome<Chain, Error>
    decreases LoadRank(load)
  {
    match LoadNext(db, run, load)
    case More(next) => LoadAll(db, run, next)
    case Complete(chain) => Ok(chain)
    case Refused(error) => Err(error)
  }

  lemma {:induction false} FinishLoadOutside(db: Db, run: Id, load: Load, luck: Luck)
    ensures var loaded := LoadAll(db, run, load);
            && (loaded.Ok? ==> Finish(db, run, Outside(load), luck) == Finish(db, run, Waiting(KeyOf(loaded.value)), luck))
            && (loaded.Err? ==> Finish(db, run, Outside(load), luck) == (db, Raised(loaded.error)))
    decreases LoadRank(load)
  {
    hide LoadNext;
    RankFalls(db, run, Outside(load), luck);
    if LoadNext(db, run, load).More? {
      FinishLoadOutside(db, run, LoadNext(db, run, load).load, luck);
    }
  }

  lemma {:induction false} FinishLoadInside(db: Db, run: Id, key: Key, load: Load, luck: Luck)
    ensures var loaded := LoadAll(db, run, load);
            && (loaded.Ok? ==> Finish(db, run, Inside(key, load), luck) == Finish(db, run, ToRead(key, loaded.value), luck))
            && (loaded.Err? ==> Finish(db, run, Inside(key, load), luck) == (db, Raised(loaded.error)))
    decreases LoadRank(load)
  {
    hide LoadNext;
    RankFalls(db, run, Inside(key, load), luck);
    match LoadNext(db, run, load)
    case More(next) => FinishLoadInside(db, run, key, next, luck);
    case Complete(_) =>
    case Refused(error) => FinishLeaving(db, run, key, Raised(error), luck);
  }

  lemma {:induction false} FinishLeaving(db: Db, run: Id, key: Key, ending: Ending, luck: Luck)
    ensures Finish(db, run, Leaving(key, ending), luck) == (db, ending)
  {
    assert Finish(db, run, Ended(ending), luck) == (db, ending);
  }

  /** With nothing in between, the second load repeats the first. */
  lemma {:induction false} FinishLoads(db: Db, run: Id, luck: Luck)
    ensures var loaded := LoadAll(db, run, AtRun);
            && (loaded.Ok? ==> Execute(db, run, luck) == Finish(db, run, ToRead(KeyOf(loaded.value), loaded.value), luck))
            && (loaded.Err? ==> Execute(db, run, luck) == (db, Raised(loaded.error)))
  {
    hide LoadAll, LoadNext;
    FinishLoadOutside(db, run, AtRun, luck);
    match LoadAll(db, run, AtRun)
    case Ok(chain) =>
      assert Finish(db, run, Waiting(KeyOf(chain)), luck) == Finish(db, run, Inside(KeyOf(chain), AtRun), luck);
      FinishLoadInside(db, run, KeyOf(chain), AtRun, luck);
    case Err(_) =>
  }

  /** The failure injector of the simulated adapters: it fails a given number of times. */
  class FailureInjector {
    var remaining: nat

    constructor (failCount: nat)
      ensures remaining == failCount
    {
      remaining := failCount;
    }

    method Check() returns (fails: bool)
      modifies this
      ensures fails == (old(remaining) > 0)
      ensures remaining == old(remaining) - if fails then 1 else 0
    {
      if remaining > 0 {
        remaining := remaining - 1;
        return true;
      }
      return false;
    }
  }

  /** The idempotent executor: a store, and an adapter with its injector. */
  class Executor {
    const store: Store
    const injector: FailureInjector

    constructor (store: Store, injector: FailureInjector)
      ensures this.store == store && this.injector == injector
    {
      this.store, this.injector := store, injector;
    }

    /** _load_approved_chain: one read after the other. */
    method LoadApprovedChain(run: Id) returns (loaded: Outcome<Chain, Error>)
      requires store.Valid()
      ensures loaded == LoadAll(store.db, run, AtRun)
    {
      hide Consistent, LoadAll;
      var db := store.db;
      ReadRow(db, run, AtRun);
      if run !in db.runs {
        return Err(RunNotFound);
      }
      var row := db.runs[run];
      ReadRow(db, run, AtProposal(row));
      if row.proposal.None? || row.proposal.value !in db.proposals {
        return Err(DataIntegrity);
      }
      var p := row.proposal.value;
      ReadRow(db, run, AtApproval(row, p, db.proposals[p]));
      if a :| a in db.approvals && db.approvals[a].proposal == p {
        OneApprovalOf(db, a);
        loaded := LoadDecision(run, a);
      } else {
        return Err(ApprovalNotFound);
      }
    }

    method LoadDecision(run: Id, a: Id) returns (loaded: Outcome<Chain, Error>)
      requires run in store.db.runs && a in store.db.approvals && store.db.approvals[a].proposal in store.db.proposals
      ensures var approval := store.db.approvals[a];
              loaded == LoadAll(store.db, run, AtDecision(store.db.runs[run], approval.proposal, store.db.proposals[approval.proposal], a, approval.status))
    {
      hide LoadAll;
      var db := store.db;
      var row, p := db.runs[run], db.approvals[a].proposal;
      ReadRow(db, run, AtDecision(row, p, db.proposals[p], a, db.approvals[a].status));
      if a !in db.decisions || !IsApproving(db.decisions[a].kind) {
        return Err(NotApproved);
      }
      if db.approvals[a].status !in {ApprovedAsIs, ApprovedWithChanges} {
        return Err(DataIntegrity);
      }
      var decision := db.decisions[a];
      ReadRow(db, run, AtVersion(row, p, db.proposals[p], a, decision));
      if decision.decidedVersion !in db.versions || db.versions[decision.decidedVersion].proposal != p {
        return Err(DataIntegrity);
      }
      if db.proposals[p].currentVersion != decision.decidedVersion {
        return Err(DataIntegrity);
      }
      return Ok(Chain(row, p, db.proposals[p], decision, db.versions[decision.decidedVersion]));
    }

    /** Load the chain, take the lock of its key, and carry it out. */
    method Execute(run: Id, newExecution: Id, record: Id) returns (ending: Ending)
      requires store.Valid()
      modifies store, injector
      ensures store.Valid()
      ensures (store.db, ending)
           == Finish(old(store.db), run, Outside(AtRun), Luck(newExecution, record, old(injector.remaining) > 0))
    {
      var luck := Luck(newExecution, record, injector.remaining > 0);
      ghost var db := store.db;
      FinishLoadOutside(db, run, AtRun, luck);
      hide Consistent, Finish, LoadAll;
      var loaded := LoadApprovedChain(run);
      if loaded.Err? {
        return Raised(loaded.error);
      }
      var key := KeyOf(loaded.value);
      Advance(db, run, Waiting(key), luck);
      ending := ExecuteWithLock(run, key, luck);
    }

    /** _execute_with_lock */
    method ExecuteWithLock(run: Id, key: Key, luck: Luck) returns (ending: Ending)
      requires store.Valid() && luck.adapterFails == (injector.remaining > 0)
      modifies store, injector
      ensures store.Valid()
      ensures (store.db, ending) == Finish(old(store.db), run, Inside(key, AtRun), luck)
    {
      hide Consistent, Finish, LoadAll;
      ghost var db := store.db;
      FinishLoadInside(db, run, key, AtRun, luck);
      var loaded := LoadApprovedChain(run);
      if loaded.Err? {
        return Raised(loaded.error);
      }
      var chain := loaded.value;
      Advance(db, run, ToRead(key, chain), luck);
      var existing := GetExecutionByVersion(chain.decision.decidedVersion);
      if existing.Some? && store.db.executions[existing.value].status == Done {
        FinishLeaving(db, run, key, Replay(store.db.executions[existing.value]), luck);
        return Replay(store.db.executions[existing.value]);
      }
      if chain.run.status != Running {
        FinishLeaving(db, run, key, Raised(RunStateConflict), luck);
        return Raised(RunStateConflict);
      }
      ending := ClaimAndRun(run, key, chain, luck);
    }

    method GetExecutionByVersion(version: Id) returns (found: Option<Id>)
      requires store.Valid()
      ensures found == ExecutionByVersion(store.db, version)
    {
      var db := store.db;
      if e :| e in db.executions && db.executions[e].version == version {
        OneExecutionOf(db, e);
        return Some(e);
      }
      return None;
    }

    /** Claim the execution, or take over the one that a crash interrupted. */
    method ClaimAndRun(run: Id, key: Key, chain: Chain, luck: Luck) returns (ending: Ending)
      requires store.Valid() && luck.adapterFails == (injector.remaining > 0)
      modifies store, injector
      ensures store.Valid()
      ensures (store.db, ending) == Finish(old(store.db), run, ToClaim(key, chain), luck)
    {
      hide Consistent, Finish, ClaimExecution, ReclaimExecution;
      Advance(store.db, run, ToClaim(key, chain), luck);
      var claimed := store.ClaimExecution(chain.proposal, chain.decision.decidedVersion, chain.row.action, key, luck.newExecution);
      if claimed.Err? {
        FinishLeaving(store.db, run, key, Raised(claimed.error), luck);
        return Raised(claimed.error);
      }
      var claim, mayReclaim := claimed.value, true;
      if !claim.acquired && (claim.row.status == Claimed || claim.row.status == InProgress) {
        Advance(store.db, run, ToReclaim(key, chain, claim.id), luck);
        claimed := store.ReclaimInterruptedExecution(claim.id);
        if claimed.Err? {
          FinishLeaving(store.db, run, key, Raised(claimed.error), luck);
          return Raised(claimed.error);
        }
        claim, mayReclaim := claimed.value, false;
      }
      if !claim.acquired {
        ending := if claim.row.status == Done then Replay(claim.row) else Raised(RunStateConflict);
        FinishLeaving(store.db, run, key, ending, luck);
        return;
      }
      ending := RunClaimed(run, key, chain, claim.id, luck);
    }

    /** Mark the execution running, call the adapter, and record what came of it. */
    method RunClaimed(run: Id, key: Key, chain: Chain, execution: Id, luck: Luck) returns (ending: Ending)
      requires store.Valid() && luck.adapterFails == (injector.remaining > 0)
      modifies store, injector
      ensures store.Valid()
      ensures (store.db, ending) == Finish(old(store.db), run, ToMark(key, chain, execution), luck)
    {
      hide Consistent, Finish, MarkRunning;
      Advance(store.db, run, ToMark(key, chain, execution), luck);
      var marked := store.MarkExecutionRunning(execution);
      if marked.Err? {
        FinishLeaving(store.db, run, key, Raised(marked.error), luck);
        return Raised(marked.error);
      }
      Advance(store.db, run, ToAdapt(key, chain, execution), luck);
      if !ParametersFit(chain.row.action, chain.version.parameters) {
        ending := NoteFailure(run, key, chain, execution, DataIntegrity, false, luck);
        return;
      }
      var fails := injector.Check();
      if fails {
        ending := NoteFailure(run, key, chain, execution, RetryableFailure, true, luck);
        return;
      }
      ending := NoteSuccess(run, key, chain, execution, luck.record, luck);
    }

    /** _record_success */
    method NoteSuccess(run: Id, key: Key, chain: Chain, execution: Id, record: Id, luck: Luck) returns (ending: Ending)
      requires store.Valid()
      modifies store
      ensures store.Valid()
      ensures (store.db, ending) == Finish(old(store.db), run, ToRecord(key, chain, execution, record), luck)
    {
      hide Consistent, Finish, RecordSuccess;
      Advance(store.db, run, ToRecord(key, chain, execution, record), luck);
      var recorded := store.RecordExecutionSuccess(execution, SettlementOf(chain, record));
      if recorded.Ok? {
        ending := Executed(recorded.value.record, recorded.value.orderRefunded, false);
        FinishLeaving(store.db, run, key, ending, luck);
        return;
      }
      if recorded.error in {BalanceExceeded, CompensationDuplicate, CapExceeded, DataIntegrity} {
        ending := NoteFailure(run, key, chain, execution, recorded.error, false, luck);
        return;
      }
      FinishLeaving(store.db, run, key, Raised(recorded.error), luck);
      return Raised(recorded.error);
    }

    /** _record_failure, then raise the error again */
    method NoteFailure(run: Id, key: Key, chain: Chain, execution: Id, error: Error, retryable: bool, luck: Luck) returns (ending: Ending)
      requires store.Valid()
      modifies store
      ensures store.Valid()
      ensures (store.db, ending) == Finish(old(store.db), run, ToFail(key, chain, execution, error, retryable), luck)
    {
      hide Consistent, Finish, RecordFailure;
      Advance(store.db, run, ToFail(key, chain, execution, error, retryable), luck);
      var failed := store.RecordExecutionFailure(execution, ErrorCode(error), retryable);
      ending := Raised(if failed.Err? && failed.error == ConstraintViolation then ConstraintViolation else error);
      FinishLeaving(store.db, run, key, ending, luck);
    }
  }

  /** One step of the program. */
  lemma {:induction false} Advance(db: Db, run: Id, pc: Pc, luck: Luck)
    requires !pc.Ended?
    ensures Finish(db, run, pc, luck) == Finish(Written(db, pc, luck), run, Continue(db, run, pc, luck), luck)
  {
    hide Written, Continue;
  }

  lemma OneExecutionOf(db: Db, e: Id)
    requires Consistent(db) && e in db.executions
    ensures ExecutionByVersion(db, db.executions[e].version) == Some(e)
  {
  }

  lemma {:induction false} ReadRow(db: Db, run: Id, load: Load)
    ensures match LoadNext(db, run, load)
            case More(next) => LoadAll(db, run, load) == LoadAll(db, run, next)
            case Complete(chain) => LoadAll(db, run, load) == Ok(chain)
            case Refused(error) => LoadAll(db, run, load) == Err(error)
  {
  }

  lemma OneApprovalOf(db: Db, a: Id)
    requires Consistent(db) && a in db.approvals
    ensures ApprovalByProposal(db, db.approvals[a].proposal) == Some(a)
  {
  }
}
