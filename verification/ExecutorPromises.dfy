/** What the executor promises, in plain terms, of every state that calls, callers of the store,
    exceptions and crashes can reach in any interleaving. */
module ExecutorPromises {
  import opened ActionModel
  import opened ActionInvariants
  import opened ActionHistory
  import opened ExecutorProgram
  import opened ExecutorMachine
  import opened ExecutorSafety
  import opened ExecutorTheorems
  import opened ExecutorAlone
  import opened ExecutorRetry

  lemma ReachableTables(now: Process)
    requires Reachable(now)
    ensures Consistent(now.db) && ClaimsDecided(now.db)
  {
    hide Reachable, Consistent, ClaimsDecided, LocksAgree, ThreadsFit, WorkedOnce, FullPaidOut;
    ReachableIsSafe(now);
  }

  /** Once the execution of the decided version is done, a call for its run returns its record
      and writes nothing, whatever calls, crashes and other transactions come in between. */
  lemma {:induction false} ReplayForever(now: Process, run: Id, p: Id, a: Id, e: Id, steps: seq<ProcessStep>, luck: Luck)
    requires Reachable(now) && IsApproved(now.db, run, p, a)
    requires e in now.db.executions && now.db.executions[e].version == now.db.decisions[a].decidedVersion
    requires now.db.executions[e].status == Done
    ensures now.db.executions[e].result.Some?
    ensures var later, result := Play(now, steps).db, now.db.executions[e].result.value;
            Execute(later, run, luck) == (later, Executed(result.record, result.orderRefunded, true))
  {
    hide Reachable, Safe, Play, Consistent, ClaimsDecided, History, Execute;
    ReachableIsSafe(now);
    ReachableTables(now);
    DoneHasResult(now.db, e);
    PlayKeepsHistory(now, steps);
    PlayKeepsSafe(now, steps);
    SafeTables(Play(now, steps));
    ApprovedKept(now.db, Play(now, steps).db, run, p, a, e);
    ReplayIsStable(Play(now, steps).db, run, p, a, e, luck);
  }

  lemma SafeTables(sys: Process)
    requires Safe(sys)
    ensures Consistent(sys.db)
  {
    hide Consistent, ClaimsDecided, LocksAgree, ThreadsFit, WorkedOnce, FullPaidOut;
  }

  /** In any reachable state where an approved run may execute and its limits permit the amount:
      however often the adapter then fails retryably, with as many resumptions one more call ends
      in success, with one more attempt per call and exactly one new record. */
  lemma {:induction false} RetriesEndInSuccess(now: Process, run: Id, p: Id, a: Id, attempts: nat, lucks: seq<Luck>, last: Luck)
    requires Reachable(now) && MayRun(now.db, run, p, a, attempts)
    requires (forall i :: 0 <= i < |lucks| ==> lucks[i].adapterFails) && !last.adapterFails
    requires FreshExecution(now.db, a, (lucks + [last])[0])
    requires Permitted(now.db, SettlementOf(ChainAt(now.db, run, p, a), last.record))
    ensures var s := SettlementOf(ChainAt(now.db, run, p, a), last.record);
            var (final, ending) := Execute(Cycles(now.db, run, lucks), run, last);
            && ending == Executed(last.record, LeavesNothing(now.db, s), false)
            && EndsIn(now.db, final, run, p, a, attempts + |lucks| + 1, s)
  {
    hide Reachable, Consistent, ClaimsDecided, Execute, Cycles, EndsIn, LeavesNothing, Permitted, FreshExecution;
    ReachableTables(now);
    RetriesSucceed(now.db, run, p, a, attempts, lucks, last);
  }

  // ---- The work is done once, also across crashes ---------------------------------------------

  predicate NoCrash(steps: seq<ProcessStep>) {
    forall i :: 0 <= i < |steps| ==> !steps[i].Crash?
  }

  /** Once a call has done the work of a run, no other call ever does it: a call that is found to
      have done it at any later moment, after any interleaving and any crashes, is that same call,
      in a process that has not crashed since. */
  lemma {:induction false} WorkIsNeverRedone(sys: Process, t: nat, steps: seq<ProcessStep>, u: nat)
    requires Reachable(sys) && t in sys.threads && DidTheWork(sys.threads[t])
    requires var later := Play(sys, steps);
             u in later.threads && DidTheWork(later.threads[u]) && later.threads[u].run == sys.threads[t].run
    ensures u == t && NoCrash(steps)
    decreases |steps|
  {
    hide Reachable, Safe, Next;
    ReachableIsSafe(sys);
    if steps == [] {
      WorkIsDoneOnce(sys, t, u);
    } else {
      var init, last := steps[..|steps| - 1], steps[|steps| - 1];
      var now := Play(sys, init);
      assert Play(sys, steps) == Next(now, last);
      PlayKeepsSafe(sys, init);
      PlayKeepsHistory(sys, init);
      NextWorker(sys, t, now, last, u);
      WorkIsNeverRedone(sys, t, init, u);
      assert steps == init + [last];
    }
  }

  /** The work of a run that is done is not begun again: who has done it after a step had done it
      before. */
  lemma NextWorker(sys: Process, t: nat, now: Process, step: ProcessStep, u: nat)
    requires Safe(sys) && Safe(now) && History(sys.db, now.db) && t in sys.threads && DidTheWork(sys.threads[t])
    requires var later := Next(now, step);
             u in later.threads && DidTheWork(later.threads[u]) && later.threads[u].run == sys.threads[t].run
    ensures u in now.threads && DidTheWork(now.threads[u]) && now.threads[u].run == sys.threads[t].run && !step.Crash?
  {
    hide Safe, History, Linked, PcFits, OwnFits, Continue, Written;
    if step.Go? && step.thread == u && u in now.threads && !DidTheWork(now.threads[u]) {
      var run, pc := now.threads[u].run, now.threads[u].pc;
      NewWork(now.db, run, pc, step.luck);
      SafeParts(now);
      PcFitsAt(now, u);
      OwnFitsAt(now, u);
      PcFitsAt(sys, t);
      PcKept(sys.db, now.db, run, sys.threads[t].pc);
      NobodyDidTheWork(now.db, run, pc, sys.threads[t].pc);
    }
  }
}
