/** What the executor promises, over all interleavings, exceptions and crashes. */
module ExecutorTheorems {
  import opened ActionModel
  import opened ActionTransactions
  import opened ActionInvariants
  import opened SettlementPreservation
  import opened ActionRuns
  import opened ActionHistory
  import opened ActionTheorems
  import opened ExecutorProgram
  import opened ExecutorMachine
  import opened ExecutorSafety

  // ---- One step keeps the process safe ---------------------------------------------------

  /** How a step of a call moves its hold on its lock. */
  predicate LockStep(pc: Pc, pc': Pc) {
    && (pc.Waiting? ==> Holds(pc') && pc'.key == pc.key)
    && (pc.Outside? || pc.Leaving? || pc.Ended? ==> !Holds(pc'))
    && (Holds(pc) && !pc.Leaving? ==> Holds(pc') && pc'.key == pc.key)
  }

  lemma ContinueLocks(db: Db, run: Id, pc: Pc, luck: Luck)
    ensures LockStep(pc, Continue(db, run, pc, luck))
  {
  }

  lemma GoKeepsLocks(threads: map<nat, Thread>, locks: map<Key, nat>, t: nat, pc': Pc)
    requires LocksAgree(threads, locks) && t in threads && LockStep(threads[t].pc, pc')
    requires threads[t].pc.Waiting? ==> threads[t].pc.key !in locks
    ensures LocksAgree(threads[t := threads[t].(pc := pc')], LocksAfter(locks, t, threads[t].pc))
  {
  }

  lemma BreakKeepsLocks(threads: map<nat, Thread>, locks: map<Key, nat>, t: nat)
    requires LocksAgree(threads, locks) && t in threads
    ensures var pc := threads[t].pc;
            LocksAgree(threads[t := threads[t].(pc := Ended(Interrupted))], if Holds(pc) then locks - {pc.key} else locks)
  {
  }

  /** Two calls never hold the lock of one key. */
  lemma HoldersDiffer(threads: map<nat, Thread>, locks: map<Key, nat>, t: nat, u: nat)
    requires LocksAgree(threads, locks) && t in threads && u in threads && t != u
    requires Holds(threads[t].pc) && Holds(threads[u].pc)
    ensures threads[t].pc.key != threads[u].pc.key
  {
  }

  lemma OwnKept(db: Db, db': Db, pc: Pc, key: Key)
    requires OwnFits(db, pc) && TouchesOnly(db.executions, db'.executions, key) && (Holds(pc) ==> pc.key != key)
    ensures OwnFits(db', pc)
  {
  }

  lemma GoKeepsThreads(sys: Process, t: nat, luck: Luck)
    requires Consistent(sys.db) && Linked(sys.db) && LocksAgree(sys.threads, sys.locks) && ThreadsFit(sys.db, sys.threads)
    requires t in sys.threads
    ensures var thread := sys.threads[t];
            ThreadsFit(Written(sys.db, thread.pc, luck),
                       sys.threads[t := thread.(pc := Continue(sys.db, thread.run, thread.pc, luck))])
  {
    hide Consistent, Linked, History, PcFits, OwnFits, Written, Continue, LocksAgree;
    var db, pc, run := sys.db, sys.threads[t].pc, sys.threads[t].run;
    var db' := Written(db, pc, luck);
    ContinueFits(db, run, pc, luck);
    ContinueOwns(db, run, pc, luck);
    WrittenKeeps(db, pc, luck);
    forall u | u in sys.threads && u != t
      ensures PcFits(db', sys.threads[u].run, sys.threads[u].pc)
      ensures OwnFits(db', sys.threads[u].pc)
    {
      PcKept(db, db', sys.threads[u].run, sys.threads[u].pc);
      OtherOwnKept(sys, t, u, luck);
    }
  }

  lemma OtherOwnKept(sys: Process, t: nat, u: nat, luck: Luck)
    requires LocksAgree(sys.threads, sys.locks) && t in sys.threads && u in sys.threads && t != u
    requires OwnFits(sys.db, sys.threads[t].pc) && OwnFits(sys.db, sys.threads[u].pc)
    ensures OwnFits(Written(sys.db, sys.threads[t].pc, luck), sys.threads[u].pc)
  {
    hide OwnFits, LocksAgree, Written;
    var db, pc, other := sys.db, sys.threads[t].pc, sys.threads[u].pc;
    if Holds(pc) {
      WrittenTouches(db, pc, luck);
      if Holds(other) {
        HoldersDiffer(sys.threads, sys.locks, t, u);
      }
      OwnKept(db, Written(db, pc, luck), other, pc.key);
    } else {
      NothingWritten(db, pc, luck);
    }
  }

  lemma NothingWritten(db: Db, pc: Pc, luck: Luck)
    requires !Holds(pc)
    ensures Written(db, pc, luck) == db
  {
  }

  // ---- Only one call does the work ---------------------------------------------------------

  predicate IsWork(pc: Pc) {
    (pc.Leaving? || pc.Ended?) && pc.ending.Executed? && !pc.ending.replayed
  }

  lemma NewWork(db: Db, run: Id, pc: Pc, luck: Luck)
    requires IsWork(Continue(db, run, pc, luck)) && !IsWork(pc)
    ensures pc.ToRecord?
  {
  }

  /** While a call is about to record, the work of its run has not been done. */
  lemma NobodyDidTheWork(db: Db, run: Id, pc: Pc, other: Pc)
    requires Linked(db) && pc.ToRecord? && PcFits(db, run, pc) && OwnFits(db, pc)
    requires PcFits(db, run, other)
    ensures !IsWork(other)
  {
    hide Linked, ChainStands;
    if IsWork(other) {
      var e :| e in db.executions && IsResultOf(db, run, other.ending, db.executions[e]);
      WorkIsDone(db, run, pc, e);
    }
  }

  lemma WorkIsDone(db: Db, run: Id, pc: Pc, e: Id)
    requires Linked(db) && pc.ToRecord? && PcFits(db, run, pc) && OwnFits(db, pc)
    requires e in db.executions
    requires var ex := db.executions[e]; ChainStands(db, run, Key(ex.proposal, ex.version, ex.action))
    ensures db.executions[e].status == InProgress
  {
    hide Linked, ChainStands;
    var ex := db.executions[e];
    SameChain(db, run, pc.key, Key(ex.proposal, ex.version, ex.action));
    SameVersion(db, e, pc.execution);
  }

  lemma SameChain(db: Db, run: Id, key: Key, other: Key)
    requires Linked(db) && ChainStands(db, run, key) && ChainStands(db, run, other)
    ensures key == other
  {
    OneChain(db, run, key, other);
  }

  lemma SameVersion(db: Db, e: Id, f: Id)
    requires Linked(db) && e in db.executions && f in db.executions && db.executions[e].version == db.executions[f].version
    ensures e == f
  {
  }

  lemma GoKeepsWork(sys: Process, t: nat, luck: Luck)
    requires Linked(sys.db) && ThreadsFit(sys.db, sys.threads) && WorkedOnce(sys.threads) && t in sys.threads
    ensures var thread := sys.threads[t];
            WorkedOnce(sys.threads[t := thread.(pc := Continue(sys.db, thread.run, thread.pc, luck))])
  {
    hide Linked, PcFits, OwnFits, Continue;
    var db, thread := sys.db, sys.threads[t];
    var next := Continue(db, thread.run, thread.pc, luck);
    if IsWork(next) && !IsWork(thread.pc) {
      NewWork(db, thread.run, thread.pc, luck);
      forall u | u in sys.threads && u != t && sys.threads[u].run == thread.run
        ensures !IsWork(sys.threads[u].pc)
      {
        NobodyDidTheWork(db, thread.run, thread.pc, sys.threads[u].pc);
      }
    }
    WorkKept(sys.threads, t, next);
  }

  lemma WorkKept(threads: map<nat, Thread>, t: nat, pc': Pc)
    requires WorkedOnce(threads) && t in threads
    requires IsWork(pc') && !IsWork(threads[t].pc) ==>
               forall u :: u in threads && u != t && threads[u].run == threads[t].run ==> !IsWork(threads[u].pc)
    ensures WorkedOnce(threads[t := threads[t].(pc := pc')])
  {
    var threads' := threads[t := threads[t].(pc := pc')];
    forall u, w | u in threads' && w in threads' && BothDidTheWork(threads'[u], threads'[w])
      ensures u == w
    {
      assert IsWork(threads[u].pc) && IsWork(threads[w].pc) ==> BothDidTheWork(threads[u], threads[w]);
    }
  }

  // ---- Full refunds --------------------------------------------------------------------------

  lemma GoKeepsPaidOut(db: Db, run: Id, pc: Pc, luck: Luck)
    requires Consistent(db) && Linked(db) && FullPaidOut(db) && PcFits(db, run, pc) && OwnFits(db, pc)
    ensures FullPaidOut(Written(db, pc, luck))
  {
    hide Consistent, Linked, FullPaidOut, History, PcFits, OwnFits, Apply;
    if pc.ToRecord? {
      RecordKeepsPaidOut(db, run, pc);
    } else {
      WrittenKeeps(db, pc, luck);
      match StoreCall(pc, luck)
      case Some(step) => EnvironmentKeepsPaidOut(db, step);
      case None =>
    }
  }

  lemma EnvironmentKeepsPaidOut(db: Db, step: Step)
    requires Consistent(db) && FullPaidOut(db) && !step.Succeed?
    ensures FullPaidOut(Apply(db, step))
  {
    hide Apply, History, FullPaidOut;
    RecordsHaveVersions(db);
    OtherStepsKeepRefunds(db, step);
    StepHistory(db, step);
    PaidOutKept(db, Apply(db, step));
  }

  lemma RecordKeepsPaidOut(db: Db, run: Id, pc: Pc)
    requires Consistent(db) && FullPaidOut(db) && pc.ToRecord? && PcFits(db, run, pc) && OwnFits(db, pc)
    ensures FullPaidOut(Apply(db, Succeed(pc.execution, SettlementOf(pc.chain, pc.record))))
  {
    hide Consistent, FullPaidOut, ChainStands, RecordSuccess;
    var s := SettlementOf(pc.chain, pc.record);
    if RecordSuccess(db, pc.execution, s).Ok? {
      SuccessSettles(db, pc.execution, s);
      var refunded := RecordSuccess(db, pc.execution, s).value.1.orderRefunded;
      SettledKeepsPaidOut(db, pc.execution, s, refunded);
    }
  }

  lemma SettledKeepsPaidOut(db: Db, id: Id, s: Settlement, refunded: bool)
    requires Consistent(db) && FullPaidOut(db) && Settles(db, id, s, refunded) && IsDecided(db, s.proposal, s.version)
    ensures FullPaidOut(SettledDb(db, id, s, refunded))
  {
    hide Consistent;
    var db' := SettledDb(db, id, s, refunded);
    SettledTables(db, id, s, refunded);
    RecordsHaveVersions(db) by { ConsistentRecords(db); }
    forall i | 0 <= i < |db'.refunds|
      ensures PaidOut(db', db'.refunds[i])
    {
      if i < |db.refunds| {
        assert PaidOut(db, db.refunds[i]);
        OlderStaysPaidOut(db, id, s, refunded, db.refunds[i]);
      } else {
        NewIsPaidOut(db, id, s, refunded);
      }
    }
  }

  lemma ConsistentRecords(db: Db)
    requires Consistent(db)
    ensures RecordsAgree(db) && FullCoversRemaining(db)
  {
  }

  lemma SettledTables(db: Db, id: Id, s: Settlement, refunded: bool)
    requires Settles(db, id, s, refunded)
    ensures var db' := SettledDb(db, id, s, refunded);
            db'.versions == db.versions
            && db'.refunds == if s.action.Refund? then db.refunds + [SettlementRecord(id, s)] else db.refunds
  {
  }

  lemma OlderStaysPaidOut(db: Db, id: Id, s: Settlement, refunded: bool, record: Record)
    requires Settles(db, id, s, refunded) && PaidOut(db, record)
    ensures PaidOut(SettledDb(db, id, s, refunded), record)
  {
    SumWithRecord(db.refunds, SettlementRecord(id, s), record.order);
  }

  lemma NewIsPaidOut(db: Db, id: Id, s: Settlement, refunded: bool)
    requires Consistent(db) && Settles(db, id, s, refunded) && IsDecided(db, s.proposal, s.version) && s.action.Refund?
    ensures PaidOut(SettledDb(db, id, s, refunded), SettlementRecord(id, s))
  {
    hide Consistent;
    ConsistentRecords(db);
    if IsFullRefund(db.versions[s.version]) {
      var a :| a in db.decisions && DecidesVersion(db, a, s.proposal, s.version);
      FullRefundTakesRemaining(db, id, s, refunded, a);
    }
  }

  // ---- Every step, every run ---------------------------------------------------------------

  lemma SafeParts(sys: Process)
    requires Safe(sys)
    ensures Consistent(sys.db) && Linked(sys.db) && FullPaidOut(sys.db) && ClaimsDecided(sys.db)
    ensures LocksAgree(sys.threads, sys.locks) && ThreadsFit(sys.db, sys.threads) && WorkedOnce(sys.threads)
  {
  }

  lemma EnvironmentKeeps(sys: Process, step: Step)
    requires Safe(sys) && !IsExecutorCall(step)
    ensures Safe(sys.(db := Apply(sys.db, step)))
  {
    hide Consistent, Linked, History, Apply, PcFits, OwnFits, FullPaidOut, ClaimsDecided, LocksAgree, WorkedOnce;
    SafeParts(sys);
    var db, db' := sys.db, Apply(sys.db, step);
    ApplyKeeps(db, step);
    EnvironmentKeepsExecutions(db, step);
    ClaimsKeptWithout(db, db');
    EnvironmentKeepsPaidOut(db, step);
    forall t | t in sys.threads
      ensures PcFits(db', sys.threads[t].run, sys.threads[t].pc)
      ensures OwnFits(db', sys.threads[t].pc)
    {
      PcKept(db, db', sys.threads[t].run, sys.threads[t].pc);
      OwnKeptWithout(db, db', sys.threads[t].pc);
    }
  }

  lemma ClaimsKeptWithout(db: Db, db': Db)
    requires ClaimsDecided(db) && History(db, db') && db'.executions == db.executions
    ensures ClaimsDecided(db')
  {
    ClaimsKept(db, db');
  }

  lemma OwnKeptWithout(db: Db, db': Db, pc: Pc)
    requires OwnFits(db, pc) && db'.executions == db.executions
    ensures OwnFits(db', pc)
  {
  }

  lemma GoKeeps(sys: Process, t: nat, luck: Luck)
    requires Safe(sys) && t in sys.threads && !(sys.threads[t].pc.Waiting? && sys.threads[t].pc.key in sys.locks)
    ensures Safe(Next(sys, Go(t, luck)))
  {
    hide Consistent, Linked, PcFits, OwnFits, FullPaidOut, ClaimsDecided, LocksAgree, WorkedOnce, Continue, Written;
    SafeParts(sys);
    var db, thread := sys.db, sys.threads[t];
    WrittenKeeps(db, thread.pc, luck);
    WrittenClaimsDecided(db, thread.run, thread.pc, luck);
    GoKeepsPaidOut(db, thread.run, thread.pc, luck);
    ContinueLocks(db, thread.run, thread.pc, luck);
    GoKeepsLocks(sys.threads, sys.locks, t, Continue(db, thread.run, thread.pc, luck));
    GoKeepsThreads(sys, t, luck);
    GoKeepsWork(sys, t, luck);
  }

  lemma BreakKeeps(sys: Process, t: nat)
    requires Safe(sys) && t in sys.threads && !sys.threads[t].pc.Ended?
    ensures Safe(Next(sys, Break(t)))
  {
    hide Consistent, Linked, FullPaidOut, ClaimsDecided, LocksAgree, WorkedOnce;
    BreakKeepsLocks(sys.threads, sys.locks, t);
    WorkKept(sys.threads, t, Ended(Interrupted));
  }

  lemma StartKeeps(sys: Process, t: nat, run: Id)
    requires Safe(sys) && t !in sys.threads
    ensures Safe(Next(sys, Start(t, run)))
  {
    hide Consistent, FullPaidOut, ClaimsDecided, WorkedOnce, LocksAgree;
    StartKeepsThreads(sys.threads, sys.locks, t, run);
  }

  lemma StartKeepsThreads(threads: map<nat, Thread>, locks: map<Key, nat>, t: nat, run: Id)
    requires LocksAgree(threads, locks) && WorkedOnce(threads) && t !in threads
    ensures var threads' := threads[t := Thread(run, Outside(AtRun))]; LocksAgree(threads', locks) && WorkedOnce(threads')
  {
    var threads' := threads[t := Thread(run, Outside(AtRun))];
    forall u, w | u in threads' && w in threads' && BothDidTheWork(threads'[u], threads'[w])
      ensures u == w
    {
      assert BothDidTheWork(threads[u], threads[w]);
    }
  }

  lemma NextKeepsSafe(sys: Process, step: ProcessStep)
    requires Safe(sys)
    ensures Safe(Next(sys, step))
  {
    hide Safe, Continue, Written, Apply;
    match step
    case Environment(call) =>
      if !IsExecutorCall(call) {
        EnvironmentKeeps(sys, call);
      }
    case Start(t, run) =>
      if t !in sys.threads {
        StartKeeps(sys, t, run);
      }
    case Go(t, luck) =>
      if t in sys.threads && !(sys.threads[t].pc.Waiting? && sys.threads[t].pc.key in sys.locks) {
        GoKeeps(sys, t, luck);
      }
    case Break(t) =>
      if t in sys.threads && !sys.threads[t].pc.Ended? {
        BreakKeeps(sys, t);
      }
    case Crash => CrashKeeps(sys);
  }

  lemma CrashKeeps(sys: Process)
    requires Safe(sys)
    ensures Safe(Process(sys.db, map[], map[]))
  {
  }

  lemma {:induction false} PlayKeepsSafe(sys: Process, steps: seq<ProcessStep>)
    requires Safe(sys)
    ensures Safe(Play(sys, steps))
  {
    hide Safe, Next;
    if steps != [] {
      PlayKeepsSafe(sys, steps[..|steps| - 1]);
      NextKeepsSafe(Play(sys, steps[..|steps| - 1]), steps[|steps| - 1]);
    }
  }

  /** Some process that started with empty workflow tables came here. */
  ghost predicate Reachable(now: Process) {
    exists start, steps :: InitialProcess(start) && now == Play(start, steps)
  }

  lemma ReachableIsSafe(now: Process)
    requires Reachable(now)
    ensures Safe(now)
  {
    hide Play;
    var start, steps :| InitialProcess(start) && now == Play(start, steps);
    assert Safe(start);
    PlayKeepsSafe(start, steps);
  }

  lemma {:induction false} PlayKeepsHistory(sys: Process, steps: seq<ProcessStep>)
    requires Safe(sys)
    ensures History(sys.db, Play(sys, steps).db)
  {
    hide Safe, Next, History;
    if steps == [] {
      HistoryReflexive(sys.db);
    } else {
      var before := Play(sys, steps[..|steps| - 1]);
      PlayKeepsHistory(sys, steps[..|steps| - 1]);
      PlayKeepsSafe(sys, steps[..|steps| - 1]);
      NextHistory(before, steps[|steps| - 1]);
      HistoryTransitive(sys.db, before.db, Play(sys, steps).db);
    }
  }

  lemma NextHistory(sys: Process, step: ProcessStep)
    requires Safe(sys)
    ensures History(sys.db, Next(sys, step).db)
  {
    hide Consistent, History, Apply, Written, Continue, LocksAgree, ThreadsFit, FullPaidOut, ClaimsDecided, WorkedOnce;
    HistoryReflexive(sys.db);
    match step
    case Environment(call) => ApplyKeeps(sys.db, call);
    case Go(t, luck) =>
      if t in sys.threads {
        WrittenKeeps(sys.db, sys.threads[t].pc, luck);
      }
    case _ =>
  }

  // ---- The promises ----------------------------------------------------------------------------

  lemma OwnFitsAt(now: Process, t: nat)
    requires Safe(now) && t in now.threads
    ensures OwnFits(now.db, now.threads[t].pc)
  {
    hide Consistent, FullPaidOut, ClaimsDecided, LocksAgree, WorkedOnce, PcFits, OwnFits;
  }

  lemma PcFitsAt(now: Process, t: nat)
    requires Safe(now) && t in now.threads
    ensures PcFits(now.db, now.threads[t].run, now.threads[t].pc)
  {
    hide Consistent, FullPaidOut, ClaimsDecided, LocksAgree, WorkedOnce, PcFits, OwnFits;
  }

  /** Two calls that are past their claims work on different executions. */
  lemma OwnersDiffer(now: Process, t: nat, u: nat)
    requires Safe(now) && t in now.threads && u in now.threads && t != u
    requires Owns(now.threads[t].pc) || now.threads[t].pc.ToReclaim?
    requires Owns(now.threads[u].pc)
    ensures now.threads[t].pc.execution != now.threads[u].pc.execution
    ensures now.threads[t].pc.key.version != now.threads[u].pc.key.version
  {
    hide Safe, Linked;
    OwnFitsAt(now, t);
    OwnFitsAt(now, u);
    LocksDiffer(now, t, u);
    if now.threads[t].pc.key.version == now.threads[u].pc.key.version {
      VersionIsExecution(now, now.threads[t].pc.execution, now.threads[u].pc.execution);
    }
  }

  lemma LocksDiffer(now: Process, t: nat, u: nat)
    requires Safe(now) && t in now.threads && u in now.threads && t != u && Holds(now.threads[t].pc) && Holds(now.threads[u].pc)
    ensures now.threads[t].pc.key != now.threads[u].pc.key
  {
    hide Consistent, ThreadsFit, FullPaidOut, ClaimsDecided, LocksAgree, WorkedOnce;
    HoldersDiffer(now.threads, now.locks, t, u);
  }

  lemma VersionIsExecution(now: Process, e: Id, f: Id)
    requires Safe(now) && e in now.db.executions && f in now.db.executions
    requires now.db.executions[e].version == now.db.executions[f].version
    ensures e == f
  {
    hide Safe, Linked;
    SafeParts(now);
    SameVersion(now.db, e, f);
  }

  /** A call that reclaims takes over a row that was interrupted, and nobody else is at work on it. */
  lemma ReclaimTakesOrphan(now: Process, t: nat)
    requires Reachable(now) && t in now.threads && now.threads[t].pc.ToReclaim?
    ensures var e := now.threads[t].pc.execution;
            && e in now.db.executions && now.db.executions[e].status in {Claimed, InProgress}
            && forall u :: u in now.threads && Owns(now.threads[u].pc) ==> now.threads[u].pc.execution != e
  {
    hide Safe, Reachable;
    ReachableIsSafe(now);
    OwnFitsAt(now, t);
    forall u | u in now.threads && Owns(now.threads[u].pc)
      ensures now.threads[u].pc.execution != now.threads[t].pc.execution
    {
      OwnersDiffer(now, t, u);
    }
  }

  /** No two calls perform the side effect of one version at the same time. */
  lemma SideEffectsExclude(now: Process, t: nat, u: nat)
    requires Reachable(now) && t in now.threads && u in now.threads && Owns(now.threads[t].pc) && Owns(now.threads[u].pc)
    requires now.threads[t].pc.key.version == now.threads[u].pc.key.version
    ensures t == u
  {
    hide Safe, Reachable;
    ReachableIsSafe(now);
    if t != u {
      OwnersDiffer(now, t, u);
    }
  }

  /** Every business record is the record of the decided version, which is the current
      version of its proposal, and repeats its amount, currency and reason. */
  lemma RecordsFollowDecisions(now: Process, action: ActionType, i: nat)
    requires Reachable(now) && i < |RecordsOf(now.db, action)|
    ensures var db, record := now.db, RecordsOf(now.db, action)[i];
            && record.proposal in db.proposals && db.proposals[record.proposal].currentVersion == record.version
            && IsDecided(db, record.proposal, record.version)
            && record.version in db.versions
            && var version := db.versions[record.version];
            && record.amount == version.amount && record.currency == version.currency && record.reason == version.reason
  {
    hide Safe, Reachable, Consistent, Linked;
    ReachableIsSafe(now);
    SafeParts(now);
    RecordOfDecision(now.db, action, i);
  }

  lemma RecordOfDecision(db: Db, action: ActionType, i: nat)
    requires Consistent(db) && ClaimsDecided(db) && i < |RecordsOf(db, action)|
    ensures var record := RecordsOf(db, action)[i];
            && RecordFits(db, action, record)
            && IsDecided(db, record.proposal, record.version)
            && db.proposals[record.proposal].currentVersion == record.version
  {
    RecordIsOfDone(db, action, i);
    var record := RecordsOf(db, action)[i];
    assert ClaimDecided(db, db.executions[record.execution]);
    DecidedIsCurrent(db, record.proposal, record.version);
  }

  lemma DecidedIsCurrent(db: Db, p: Id, v: Id)
    requires DecisionsAgree(db) && p in db.proposals && IsDecided(db, p, v)
    ensures db.proposals[p].currentVersion == v
  {
    var a :| a in db.decisions && DecidesVersion(db, a, p, v);
    assert ApprovalAgrees(db, a);
  }

  /** A version, and a proposal, has at most one business record. */
  lemma OneRecordPerVersion(now: Process, action: ActionType, i: nat, other: ActionType, j: nat)
    requires Reachable(now) && i < |RecordsOf(now.db, action)| && j < |RecordsOf(now.db, other)|
    requires var first, second := RecordsOf(now.db, action)[i], RecordsOf(now.db, other)[j];
             first.version == second.version || first.proposal == second.proposal
    ensures action == other && i == j
  {
    hide Safe, Reachable, Linked, ClaimsDecided, Consistent;
    ReachableIsSafe(now);
    SafeParts(now);
    RecordOfDecision(now.db, action, i);
    RecordOfDecision(now.db, other, j);
    VersionsOfOneProposal(now.db, action, i, other, j);
    ConsistentExecutions(now.db);
    OneRecordPerProposal(now.db, action, i, other, j);
  }

  lemma ConsistentExecutions(db: Db)
    requires Consistent(db)
    ensures ExecutionsAgree(db) && RecordsAgree(db)
  {
  }

  lemma VersionsOfOneProposal(db: Db, action: ActionType, i: nat, other: ActionType, j: nat)
    requires Consistent(db) && i < |RecordsOf(db, action)| && j < |RecordsOf(db, other)|
    requires RecordsOf(db, action)[i].version == RecordsOf(db, other)[j].version
    ensures RecordsOf(db, action)[i].proposal == RecordsOf(db, other)[j].proposal
  {
    RecordIsOfDone(db, action, i);
    RecordIsOfDone(db, other, j);
    assert ExecutionFits(db, RecordsOf(db, action)[i].execution) && ExecutionFits(db, RecordsOf(db, other)[j].execution);
  }

  /** Once a full refund is recorded, refunds add up to exactly the order total and the
      order is marked refunded, for good. */
  lemma FullRefundsPayOut(now: Process, i: nat)
    requires Reachable(now) && i < |now.db.refunds| && now.db.refunds[i].version in now.db.versions
    requires IsFullRefund(now.db.versions[now.db.refunds[i].version])
    ensures var order := now.db.refunds[i].order;
            && order in now.db.orders
            && SumFor(now.db.refunds, order) == now.db.orders[order].total
            && now.db.orders[order].status == OrderStatus.Refunded
  {
    hide Reachable, Safe, Consistent, Linked, ClaimsDecided, LocksAgree, ThreadsFit, WorkedOnce;
    ReachableIsSafe(now);
    SafeParts(now);
    PaidBackIsRefunded(now.db);
    assert PaidOut(now.db, now.db.refunds[i]);
  }

  lemma PaidBackIsRefunded(db: Db)
    requires Consistent(db)
    ensures RefundedWhenPaidBack(db)
  {
    hide References, OneApproval, DecisionsAgree, Numbered, ExecutionsAgree, RunsAgree, SuccessesExecuted, RecordsAgree, MoneyBounded,
         OneActive, FullCoversRemaining;
  }

  /** The executor's own step that records a full refund, in any reachable state, with anything
      going on beside it: it records exactly what is left of the order at that moment, leaves
      nothing, and marks the order refunded, although neither it nor the store reads the scope. */
  lemma FullRefundTakesTheRest(sys: Process, t: nat, luck: Luck)
    requires Reachable(sys) && t in sys.threads && sys.threads[t].pc.ToRecord?
    requires var chain := sys.threads[t].pc.chain; chain.row.action.Refund? && IsFullRefund(chain.version)
    requires Next(sys, Go(t, luck)).db != sys.db
    ensures var (order, db, db') := (sys.threads[t].pc.chain.row.order, sys.db, Next(sys, Go(t, luck)).db);
            && order in db.orders && order in db'.orders
            && |db'.refunds| == |db.refunds| + 1 && db'.refunds[..|db.refunds|] == db.refunds
            && db'.refunds[|db.refunds|].order == order && db'.refunds[|db.refunds|].amount == Remaining(db, order)
            && Remaining(db', order) == 0 && db'.orders[order].status == OrderStatus.Refunded
  {
    hide Reachable, Safe, Consistent, Linked, FullPaidOut, ClaimsDecided, LocksAgree, ThreadsFit, WorkedOnce, RecordSuccess, ChainStands,
         OwnFits, Settles, SettledDb, IsDecided;
    ReachableIsSafe(sys);
    SafeParts(sys);
    PcFitsAt(sys, t);
    var (db, pc) := (sys.db, sys.threads[t].pc);
    var s := SettlementOf(pc.chain, pc.record);
    SuccessSettles(db, pc.execution, s);
    SettlesTheRest(db, pc.execution, s, RecordSuccess(db, pc.execution, s).value.1.orderRefunded);
  }

  lemma SettlesTheRest(db: Db, id: Id, s: Settlement, refunded: bool)
    requires Consistent(db) && Settles(db, id, s, refunded) && IsDecided(db, s.proposal, s.version)
    requires s.action.Refund? && s.version in db.versions && IsFullRefund(db.versions[s.version])
    ensures var db' := SettledDb(db, id, s, refunded);
            && s.order in db.orders && s.order in db'.orders && db'.refunds == db.refunds + [SettlementRecord(id, s)]
            && s.amount == Remaining(db, s.order) && Remaining(db', s.order) == 0 && db'.orders[s.order].status == OrderStatus.Refunded
  {
    hide Consistent;
    ConsistentRecords(db);
    SettledTables(db, id, s, refunded);
    var a :| a in db.decisions && DecidesVersion(db, a, s.proposal, s.version);
    FullRefundTakesRemaining(db, id, s, refunded, a);
  }

  /** Whatever happens in between, two calls for one run that return a result return the
      same one. */
  lemma {:induction false} ResultsAgree(sys: Process, t: nat, steps: seq<ProcessStep>, u: nat)
    requires Reachable(sys) && t in sys.threads && sys.threads[t].pc.Ended? && sys.threads[t].pc.ending.Executed?
    requires var later := Play(sys, steps);
             && u in later.threads && later.threads[u].pc.Ended? && later.threads[u].pc.ending.Executed?
             && later.threads[u].run == sys.threads[t].run
    ensures var first, second := sys.threads[t].pc.ending, Play(sys, steps).threads[u].pc.ending;
            first.record == second.record && first.orderRefunded == second.orderRefunded
  {
    hide Safe, Reachable, Play, History, Linked, EndingFits;
    ReachableIsSafe(sys);
    PlayKeepsSafe(sys, steps);
    PlayKeepsHistory(sys, steps);
    var later := Play(sys, steps);
    PcFitsAt(sys, t);
    PcFitsAt(later, u);
    EndingKept(sys.db, later.db, sys.threads[t].run, sys.threads[t].pc.ending);
    SafeParts(later);
    EndingsAgree(later.db, sys.threads[t].run, sys.threads[t].pc.ending, later.threads[u].pc.ending);
  }

  lemma EndingsAgree(db: Db, run: Id, first: Ending, second: Ending)
    requires Linked(db) && EndingFits(db, run, first) && EndingFits(db, run, second) && first.Executed? && second.Executed?
    ensures first.record == second.record && first.orderRefunded == second.orderRefunded
  {
    hide Linked, ChainStands;
    var e :| e in db.executions && IsResultOf(db, run, first, db.executions[e]);
    var f :| f in db.executions && IsResultOf(db, run, second, db.executions[f]);
    SameChain(db, run, Key(db.executions[e].proposal, db.executions[e].version, db.executions[e].action),
              Key(db.executions[f].proposal, db.executions[f].version, db.executions[f].action));
    SameVersion(db, e, f);
  }

  /** Of the calls for one run at most one did the work; all others replayed its result. */
  lemma WorkIsDoneOnce(now: Process, t: nat, u: nat)
    requires Reachable(now) && t in now.threads && u in now.threads && BothDidTheWork(now.threads[t], now.threads[u])
    ensures t == u
  {
    hide Reachable, Consistent, Linked, FullPaidOut, ClaimsDecided, LocksAgree, ThreadsFit;
    ReachableIsSafe(now);
  }
}
