/** Any number of executor calls in one process, interleaved with each other and with
    every other caller of the store, with exceptions and process crashes at any point. */
module ExecutorMachine {
  import opened Outcomes
  import opened ActionModel
  import opened ActionInvariants
  import opened ActionRuns
  import opened ActionHistory
  import opened ExecutorProgram

  datatype Thread = Thread(run: Id, pc: Pc)

  /** The database, the running calls, and the lock table: who holds the lock of a key. */
  datatype Process = Process(db: Db, threads: map<nat, Thread>, locks: map<Key, nat>)

  predicate Holds(pc: Pc) {
    !pc.Outside? && !pc.Waiting? && !pc.Ended?
  }

  /** Claims and what follows them are made by the executor alone. */
  predicate IsExecutorCall(step: Step) {
    step.ClaimStep? || step.Reclaim? || step.Mark? || step.Succeed? || step.Fail?
  }

  datatype ProcessStep =
    | Environment(step: Step)            // any other transaction, with any arguments
    | Start(thread: nat, run: Id)        // execute is called
    | Go(thread: nat, luck: Luck)        // one step of one call
    | Break(thread: nat)                 // any other exception ends the call and releases its lock
    | Crash                              // the process ends: calls and locks are gone

  function LocksAfter(locks: map<Key, nat>, thread: nat, pc: Pc): map<Key, nat> {
    if pc.Waiting? then locks[pc.key := thread]
    else if pc.Leaving? then locks - {pc.key}
    else locks
  }

  ghost function Next(sys: Process, step: ProcessStep): Process {
    match step
    case Environment(call) => if IsExecutorCall(call) then sys else sys.(db := Apply(sys.db, call))
    case Start(t, run) =>
      if t in sys.threads then sys else sys.(threads := sys.threads[t := Thread(run, Outside(AtRun))])
    case Go(t, luck) =>
      if t !in sys.threads then sys
      else
        var thread := sys.threads[t];
        if thread.pc.Waiting? && thread.pc.key in sys.locks then sys  // blocked
        else Process(Written(sys.db, thread.pc, luck),
                    sys.threads[t := thread.(pc := Continue(sys.db, thread.run, thread.pc, luck))],
                    LocksAfter(sys.locks, t, thread.pc))
    case Break(t) =>
      if t !in sys.threads || sys.threads[t].pc.Ended? then sys
      else
        var thread := sys.threads[t];
        sys.(threads := sys.threads[t := thread.(pc := Ended(Interrupted))],
             locks := if Holds(thread.pc) then sys.locks - {thread.pc.key} else sys.locks)
    case Crash => Process(sys.db, map[], map[])
  }

  ghost function Play(sys: Process, steps: seq<ProcessStep>): Process {
    if steps == [] then sys else Next(Play(sys, steps[..|steps| - 1]), steps[|steps| - 1])
  }

  ghost predicate InitialProcess(sys: Process) {
    Initial(sys.db) && sys.threads == map[] && sys.locks == map[]
  }

  // ---- What a call knows -----------------------------------------------------------------

  /** v is the version that the approving decision on p decided. */
  ghost predicate IsDecided(db: Db, p: Id, v: Id) {
    exists a :: a in db.decisions && DecidesVersion(db, a, p, v)
  }

  predicate DecidesVersion(db: Db, a: Id, p: Id, v: Id)
    requires a in db.decisions
  {
    && a in db.approvals && db.approvals[a].proposal == p
    && IsApproving(db.decisions[a].kind) && db.decisions[a].decidedVersion == v
  }

  /** The authorization chain of a run leads to this key. */
  ghost predicate ChainStands(db: Db, run: Id, key: Key) {
    && key.proposal in db.proposals
    && db.proposals[key.proposal].run == run
    && db.proposals[key.proposal].action == key.action
    && IsDecided(db, key.proposal, key.version)
  }

  predicate RowFits(db: Db, run: Id, p: Id, row: Proposal) {
    && p in db.proposals && db.proposals[p].run == run
    && db.proposals[p].order == row.order && db.proposals[p].action == row.action
  }

  ghost predicate LoadFits(db: Db, run: Id, load: Load) {
    match load
    case AtRun => true
    case AtProposal(_) => true
    case AtApproval(_, p, row) => RowFits(db, run, p, row)
    case AtDecision(_, p, row, a, _) => RowFits(db, run, p, row) && a in db.approvals && db.approvals[a].proposal == p
    case AtVersion(_, p, row, a, decision) =>
      RowFits(db, run, p, row) && a in db.decisions && DecidesVersion(db, a, p, decision.decidedVersion)
  }

  ghost predicate ChainFits(db: Db, run: Id, chain: Chain) {
    && RowFits(db, run, chain.proposal, chain.row)
    && IsDecided(db, chain.proposal, chain.decision.decidedVersion)
    && chain.decision.decidedVersion in db.versions
    && db.versions[chain.decision.decidedVersion] == chain.version
    && chain.version.proposal == chain.proposal
  }

  predicate Owns(pc: Pc) {
    pc.ToMark? || pc.ToAdapt? || pc.ToRecord? || pc.ToFail?
  }

  /** The execution a call works on, and the status it must still have. */
  predicate OwnFits(db: Db, pc: Pc) {
    Owns(pc) || pc.ToReclaim? ==>
      && pc.execution in db.executions
      && var ex := db.executions[pc.execution];
      && ex.key == pc.key
      && ex.version == pc.key.version
      && ex.status in match pc {
           case ToReclaim(_, _, _) => {Claimed, InProgress}
           case ToMark(_, _, _) => {Claimed}
           case _ => {InProgress}
         }
  }

  /** A successful ending is the stored result of the execution of the run's chain. */
  ghost predicate EndingFits(db: Db, run: Id, ending: Ending) {
    ending.Executed? ==> exists e :: e in db.executions && IsResultOf(db, run, ending, db.executions[e])
  }

  ghost predicate IsResultOf(db: Db, run: Id, ending: Ending, ex: Execution)
    requires ending.Executed?
  {
    && ex.status == Done
    && ex.result == Some(ExecutionResult(ending.record, ending.orderRefunded))
    && ChainStands(db, run, Key(ex.proposal, ex.version, ex.action))
  }

  ghost predicate PcFits(db: Db, run: Id, pc: Pc) {
    match pc
    case Outside(load) => LoadFits(db, run, load)
    case Waiting(key) => ChainStands(db, run, key)
    case Inside(key, load) => ChainStands(db, run, key) && LoadFits(db, run, load)
    case Leaving(key, ending) => EndingFits(db, run, ending)
    case Ended(ending) => EndingFits(db, run, ending)
    case _ => ChainStands(db, run, pc.key) && ChainFits(db, run, pc.chain)
  }

  // ---- The invariant ---------------------------------------------------------------------

  /** Executions are claimed for decided versions, under the key of that version. */
  ghost predicate ClaimsDecided(db: Db) {
    forall e :: e in db.executions ==> ClaimDecided(db, db.executions[e])
  }

  ghost predicate ClaimDecided(db: Db, ex: Execution) {
    ex.key == Key(ex.proposal, ex.version, ex.action) && IsDecided(db, ex.proposal, ex.version)
  }

  /** After a full refund nothing is left of the order. */
  ghost predicate FullPaidOut(db: Db) {
    forall i :: 0 <= i < |db.refunds| ==> PaidOut(db, db.refunds[i])
  }

  ghost predicate PaidOut(db: Db, record: Record) {
    record.version in db.versions && IsFullRefund(db.versions[record.version]) ==>
      record.order in db.orders && Remaining(db, record.order) == 0
  }

  /** A lock is held exactly by the call that is past taking it and not yet past releasing it. */
  ghost predicate LocksAgree(threads: map<nat, Thread>, locks: map<Key, nat>) {
    && (forall t :: t in threads && Holds(threads[t].pc) ==> threads[t].pc.key in locks && locks[threads[t].pc.key] == t)
    && (forall k :: k in locks ==> locks[k] in threads && Holds(threads[locks[k]].pc) && threads[locks[k]].pc.key == k)
  }

  ghost predicate ThreadsFit(db: Db, threads: map<nat, Thread>) {
    && (forall t :: t in threads ==> PcFits(db, threads[t].run, threads[t].pc))
    && (forall t :: t in threads ==> OwnFits(db, threads[t].pc))
  }

  /** The call that did the work, rather than replaying it. */
  predicate DidTheWork(thread: Thread) {
    (thread.pc.Leaving? || thread.pc.Ended?) && thread.pc.ending.Executed? && !thread.pc.ending.replayed
  }

  predicate BothDidTheWork(thread: Thread, other: Thread) {
    DidTheWork(thread) && DidTheWork(other) && thread.run == other.run
  }

  /** Of all calls for one run, at most one did the work. */
  ghost predicate WorkedOnce(threads: map<nat, Thread>) {
    forall t, u :: t in threads && u in threads && BothDidTheWork(threads[t], threads[u]) ==> t == u
  }

  ghost predicate Safe(sys: Process) {
    match sys case Process(db, threads, locks) =>  // a match: one obligation for a caller that hides the body
    && Consistent(db)
    && ClaimsDecided(db)
    && FullPaidOut(db)
    && LocksAgree(threads, locks)
    && ThreadsFit(db, threads)
    && WorkedOnce(threads)
  }

  // ---- What a call knows stays true --------------------------------------------------------

  lemma DecidedKept(db: Db, db': Db, p: Id, v: Id)
    requires History(db, db') && IsDecided(db, p, v)
    ensures IsDecided(db', p, v)
  {
    var a :| a in db.decisions && DecidesVersion(db, a, p, v);
    assert a in db'.decisions && DecidesVersion(db', a, p, v);
  }

  lemma ChainKept(db: Db, db': Db, run: Id, key: Key)
    requires History(db, db') && ChainStands(db, run, key)
    ensures ChainStands(db', run, key)
  {
    DecidedKept(db, db', key.proposal, key.version);
    assert ProposalKept(db.proposals[key.proposal], db'.proposals[key.proposal]);
  }

  lemma RowKept(db: Db, db': Db, run: Id, p: Id, row: Proposal)
    requires History(db, db') && RowFits(db, run, p, row)
    ensures RowFits(db', run, p, row)
  {
    assert ProposalKept(db.proposals[p], db'.proposals[p]);
  }

  lemma LoadKept(db: Db, db': Db, run: Id, load: Load)
    requires History(db, db') && LoadFits(db, run, load)
    ensures LoadFits(db', run, load)
  {
    hide RowFits;
    match load
    case AtRun =>
    case AtProposal(_) =>
    case AtApproval(_, p, row) => RowKept(db, db', run, p, row);
    case AtDecision(_, p, row, a, _) => RowKept(db, db', run, p, row);
    case AtVersion(_, p, row, a, _) => RowKept(db, db', run, p, row);
  }

  lemma LoadedChainKept(db: Db, db': Db, run: Id, chain: Chain)
    requires History(db, db') && ChainFits(db, run, chain)
    ensures ChainFits(db', run, chain)
  {
    RowKept(db, db', run, chain.proposal, chain.row);
    DecidedKept(db, db', chain.proposal, chain.decision.decidedVersion);
  }

  lemma EndingKept(db: Db, db': Db, run: Id, ending: Ending)
    requires History(db, db') && EndingFits(db, run, ending)
    ensures EndingFits(db', run, ending)
  {
    if ending.Executed? {
      var e :| e in db.executions && IsResultOf(db, run, ending, db.executions[e]);
      var ex := db.executions[e];
      assert ExecutionKept(ex, db'.executions[e]);
      ChainKept(db, db', run, Key(ex.proposal, ex.version, ex.action));
      assert IsResultOf(db', run, ending, db'.executions[e]);
    }
  }

  lemma PcKept(db: Db, db': Db, run: Id, pc: Pc)
    requires History(db, db') && PcFits(db, run, pc)
    ensures PcFits(db', run, pc)
  {
    hide History, ChainStands, ChainFits, LoadFits, EndingFits;
    match pc
    case Outside(load) => LoadKept(db, db', run, load);
    case Waiting(key) => ChainKept(db, db', run, key);
    case Inside(key, load) => ChainKept(db, db', run, key); LoadKept(db, db', run, load);
    case Leaving(_, ending) => EndingKept(db, db', run, ending);
    case Ended(ending) => EndingKept(db, db', run, ending);
    case _ => ChainKept(db, db', run, pc.key); LoadedChainKept(db, db', run, pc.chain);
  }

  /** A run has one chain: its proposal, that proposal's approval, and the decided version. */
  lemma OneChain(db: Db, run: Id, key: Key, other: Key)
    requires RunsLinked(db) && ProposalsLinked(db) && OneApproval(db)
    requires ChainStands(db, run, key) && ChainStands(db, run, other)
    ensures key == other
  {
    assert key.proposal == other.proposal;
    var a :| a in db.decisions && DecidesVersion(db, a, key.proposal, key.version);
    var b :| b in db.decisions && DecidesVersion(db, b, key.proposal, other.version);
    assert a == b;
  }
}
