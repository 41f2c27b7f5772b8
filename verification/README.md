# SupportPilot: verified model of the action workflow, knowledge ingestion and answering

A Dafny 4.11 model of the three parts of the SupportPilot backend where a mistake would cost
money, lose text or mislead a reader, with proofs of what they promise. `dafny verify
dfyconfig.toml` checks everything.

## What is modelled

**A. Refunds and compensations** (`app/actions`). The store is a class with one field, the
tables (orders, runs, proposals, versions, approvals, decisions, executions, refund and
compensation records, audit log); every public write method is one transaction that commits a
new value of the tables or leaves them alone. A run of the system is a sequence of transactions
with any arguments from any caller, so the orchestration graph is simply one more caller.
The executor is a machine of any number of calls, each a program counter between the
transactions and reads of `execute`, with the lock table of the process; between any two
steps any other call, any other caller of the store, an exception in a call, or a crash that
clears calls and locks but keeps the tables may come in.

**B. Knowledge ingestion** (`app/knowledge`). The Markdown loader, the outline and the chunker
are written as the loops they are and proved against declarative definitions of headings,
sections and spans. Uploads (in the request or queued), the worker, recovery and the vector
store form a second machine, again with any interleaving, failures at every step and crashes.

**C. Answering** (`app/agent`, retrieval, reranking, table rendering). One turn of the agent
against an arbitrary model, arbitrary tools and an arbitrary listener; the search from candidates to citations; and
the printer of pipe tables with the parser it must be inverse to.

How the files fit together:

| files | content |
|---|---|
| `Outcomes`, `Text`, `Numbering` | results with errors; strip, upper case, white space; the next number |
| `ActionModel`, `ActionTransactions` | the tables, and each transaction as a function of them |
| `ActionInvariants`, `*Preservation`, `ActionRuns` | what every reachable state satisfies |
| `ActionHistory`, `ActionTheorems`, `ActionPromises` | what is never undone; money, decisions, audit; the promises for every reachable state |
| `ActionMeaning` | when each transaction goes through and what it leaves in every table, in rows and sums |
| `ActionGaps` | what the store alone does not promise, and exactly when it holds |
| `ActionStore`, `ActionService` | the store as methods that change its field; the approval service |
| `IdempotencyKey`, `ExecutorProgram`, `ExecutorMachine`, `ExecutorSafety`, `ExecutorTheorems` | the concurrent executor |
| `ExecutorAlone`, `ExecutorRetry`, `ExecutorPromises` | one call undisturbed, as methods; replay and retry |
| `ExecutorMeaning` | what each step of the executor comes to, in rows and sums |
| `Headings`, `DocumentLoader`, `Outline`, `Chunking`, `LosslessChunking`, `SectionSearch` | from uploaded text to chunks; when the section search is exact |
| `IngestionMachine`, `IngestionSafety`, `IngestionSteps`, `IngestionTheorems`, `Citations` | the ingestion machine and what can be cited |
| `Reuploads` | the same bytes uploaded again, queued and in the request |
| `KnowledgeStore`, `IngestionService` | the knowledge store and the worker's job as methods |
| `IngestionOutcomes` | how undisturbed jobs and new uploads end, in rows |
| `TableMarkdown`, `Retrieval`, `Search` | rendering, search |
| `JsonValues`, `CitationNumbers`, `CitationCheck`, `TurnLoop`, `TurnTheorems` | the check of an answer; one turn of the agent, and what every turn promises |
| `TurnMeaning` | what each call and each answer leave, in the lists of the turn |

What the code does not do, although its comments or a caller might suggest it (the model follows the
code):

- A succeeded run need not have a record: it has exactly one if and only if its proposal has
  succeeded too (`SucceededRunHasRecordIff`). Every `transition_run` that ends a run as succeeded
  leaves it without one for good (`TransitionLeavesNoRecord`), every running run can be ended so
  (`RunningRunCanEndBare`), and it happens (`GapsAreReachable`).
- A workflow failure recorded after a claim always strands the claimed execution, also when it is
  marked retryable (`WorkflowFailureStrands`, `GapsAreReachable`); reclaiming is possible exactly
  under the condition of `InterruptedIsReclaimableIff`.
- A key text is unambiguous exactly when no identifier in it has a colon (`UnambiguousIff`).
- Bytes uploaded again while their version's job has failed are retried by the synchronous route
  only. The queued route reserves a version and queues a job if and only if no version of the document
  has the bytes when it reserves (`ReservesIff`, `QueuesIff`); otherwise it writes nothing and is
  answered with the job that failed (`QueuedReuploadNeverRetries`, `FailedReceiptIsReachable`). The
  synchronous route is never answered with a failed job (`SynchronousAnswersHaveNotFailed`) and
  does retry (`SynchronousReuploadRetries`).
- The forward search for sections, called exact in a comment of the chunker, finds every section,
  at or before its true position. It is exact if and only if no section's text occurs between the
  true end of the section before and its own true start (`LoadedSearchIsExactIff`, for any sections
  `SearchIsExactIff`); it need not be (`SearchMayStopEarly`).
- Approvals that a turn has announced do not reach the caller if and only if, after that, one of
  these raises where no handler is (`ApprovalsAreLostIff`, `ApprovalsCanBeLost`): the model's response
  has no message, or calls without a function while rounds are left; a call whose identifier or name
  is no text, or whose arguments break the parser; a search result whose data is not an object, or a
  result that cannot be written as text; the event listener; or the response itself cannot be built,
  because an approval has a field of another type than the response model wants, the text or
  reasoning of the answer is no text, or the citations cannot be checked (`Checkable`; in a turn only
  the three cases of `TurnCheckableIff`).
- Extracted text can be reloaded exactly if it fits the size limit (`ReloadRebuilds`).
- A table with rows and no cell in any of them is the one table that reading back does not recover
  (`RecoveredIff`, `DocumentTableReads`).

Contracts assumed of outside code are predicates that the lemmas name: `SplitterFits` (a text is
white-space gaps between non-empty pieces that start with a character), `TailFits` (decoding a
token suffix gives no more characters than the text has). Identifiers, outcomes of outside calls,
the results of models, tools, parsers and the vector search, what event listeners do, and what `int`
and the response model make of texts and fractions are arbitrary inputs.

## Model

| member | source | states |
|---|---|---|
| ActionRuns.ReachableIsConsistent | app/actions/sqlite_store.py:83-101 | from empty tables, every sequence of store calls with any arguments keeps the references, the four state machines, the money limits and the index of active proposals |
| ActionRuns.StepKeeps | app/actions/sqlite_store.py:131-146 | each single transaction, committed or rolled back, keeps those invariants |
| ActionRuns.RunsKeepConsistency | app/actions/sqlite_store.py:131-146 | so does any run from any consistent state |
| CreationPreservation.CreationKeeps | app/actions/sqlite_store.py:705-973 | the rows of a permitted new workflow keep all invariants |
| DecisionPreservation.DecisionKeeps | app/actions/sqlite_store.py:1379-1549 | the rows a permitted first decision writes keep all invariants, among them version numbers 1 to n and decided iff not pending |
| SettlementPreservation.SettlementKeeps | app/actions/sqlite_store.py:2131-2430 | the rows a permitted success writes keep all invariants, among them the money limits and one record per finished execution |
| ActionPreservation.AdvancesKeeps | app/actions/sqlite_store.py:564-658 | a change that moves runs, proposals and executions only along permitted edges, as claims, failures and transitions do, keeps all invariants |
| ActionHistory.RunsKeepHistory | app/actions/sqlite_store.py:83-101 | over any run nothing settled changes: versions, decisions and finished executions keep their rows, records and audit entries are only appended, succeeded and cancelled runs and succeeded and rejected proposals keep their status |
| ActionHistory.StepHistory | app/actions/sqlite_store.py:1711-1757 | the same for one transaction, in particular no transaction changes an inserted version |
| ActionPromises.LeadsIff | app/actions/sqlite_store.py:131-146 | what reachable means: one state leads to another exactly if some sequence of committed or rolled back transactions does |
| ActionPromises.DecisionsAndProposalsAgree | app/actions/sqlite_store.py:1379-1470 | in every reachable state an approval is pending iff there is no decision iff its proposal awaits approval, and a proposal is rejected iff the decision rejects |
| ActionPromises.OneApprovalEach | app/actions/sqlite_store.py:816-973 | every proposal has exactly one approval |
| ActionPromises.SucceededIffRecordedOnce | app/actions/sqlite_store.py:2355-2377 | an execution has succeeded iff exactly one business record, counted over both tables, points at it, and none ever has more |
| ActionPromises.SucceededProposalHasSucceededRun | app/actions/sqlite_store.py:2355-2377 | the run of a succeeded proposal has succeeded |
| ActionPromises.CompletedIff | app/actions/sqlite_store.py:598-658 | completed_at is set iff the run succeeded, was cancelled or failed for good |
| ActionPromises.OneActiveProposal | app/actions/sqlite_store.py:72-82 | two active proposals of one order and type are one |
| ActionPromises.EndedRunsStay | app/actions/sqlite_store.py:83-101 | succeeded and cancelled runs keep their status whatever follows |
| ActionPromises.EndedProposalsStay | app/actions/sqlite_store.py:564-595 | so do succeeded and rejected proposals |
| ActionPromises.VersionsAreNumbered | app/actions/sqlite_store.py:1711-1757 | the version numbers of a proposal are exactly 1 to n |
| ActionPromises.VersionNumbersDiffer | app/actions/sqlite_store.py:1711-1757 | and no two of its versions share one |
| ActionPromises.VersionsStay | app/actions/sqlite_store.py:1711-1757 | an inserted version never changes |
| ActionPromises.DecisionStands | app/actions/sqlite_store.py:1349-1377 | at any later time the same content from someone who is a member then returns the first decision, any other is refused, and neither changes the tables, also when members come and go |
| ActionPromises.MoneyIsBounded | app/actions/sqlite_store.py:335-438 | in every reachable state, for every order: refunds sum to at most the total, compensations to at most half of it rounded down |
| ActionPromises.ReasonsAreGrantedOnce | app/actions/sqlite_store.py:401-438 | no order is compensated twice for one reason |
| ActionPromises.PaidOnce | app/actions/sqlite_store.py:2239-2330 | two records of one proposal are the same record of the same table |
| ActionPromises.FullRefundEmptiesOrder | app/actions/sqlite_store.py:2239-2251 | recording a full refund under its approving decision takes exactly what is left, leaves nothing and marks the order refunded, although the recording never reads the scope |
| ActionPromises.RecordsAreApproved | app/actions/sqlite_store.py:2205-2237 | every business record has a stored approving decision |
| ActionPromises.UnapprovedNeverExecutes | app/actions/sqlite_store.py:1819-1824 | while undecided or rejected a proposal has no execution and no claim succeeds, whatever its arguments |
| ActionPromises.RejectedNeverExecutes | app/actions/sqlite_store.py:1819-1824 | once rejected it stays so whatever follows |
| ActionPromises.InterruptedIsReclaimableIff | app/actions/sqlite_store.py:1942-1979 | an interrupted execution can be taken over if and only if its proposal is approved or executing |
| ActionGaps.RecordsOfProposal | app/actions/sqlite_store.py:2239-2330 | in every reachable state a proposal has exactly one record, over both tables, if it has succeeded, and none otherwise |
| ActionGaps.SucceededRunHasRecordIff | app/actions/sqlite_store.py:1043-1117 | exactly when a succeeded run has a record: if and only if its proposal has succeeded too, and then exactly one |
| ActionGaps.TransitionLeavesNoRecord | app/actions/sqlite_store.py:1043-1117 | a transition that ends a run as succeeded, in any reachable state, leaves it without a record then and ever after |
| ActionGaps.RunningRunCanEndBare | app/actions/sqlite_store.py:1043-1117 | and every running run can be ended so |
| ActionGaps.WorkflowFailureStrands | app/actions/sqlite_store.py:2581-2661 | in every reachable state a workflow failure of a running run with an unfinished execution goes through, retryable or not, and the execution cannot be reclaimed after it |
| ActionGaps.ClaimedRunIsReachable | app/actions/sqlite_store.py:1761-1916 | a running run with a claimed execution is reachable from a store with one order |
| ActionGaps.GapsAreReachable | app/actions/sqlite_store.py:2581-2661 | so are a stranded execution and a succeeded run without any record |
| ActionTheorems.AttemptsAreAudited | app/actions/sqlite_store.py:2008-2041 | in every reachable state the claim entries of an execution number its attempts, plus exactly the entries that callers of append_audit_log wrote themselves |
| ActionMeaning.CreatedIff | app/actions/sqlite_store.py:705-815 | for any tables: a workflow is created if and only if amount and inputs are in order, the order is there in the currency, a refund is within the total less the refunds so far (all of it for a full one), a compensation is for a new reason and within half the total with those so far, no active proposal or run of the same turn competes, the identifiers are new and the creator is a member; and the error of each money condition |
| ActionMeaning.CreatedRows | app/actions/sqlite_store.py:816-973 | the run, proposal, version and approval it writes carry the order, action, amount, reason, text, parameters and normalised currency of the request, every other row is as it was, and three audit entries follow |
| ActionMeaning.CurrencyIsNormalised | app/actions/sqlite_store.py:269-312 | a normalised currency is the text between the white space, with capitals for small letters |
| ActionMeaning.FirstDecidedIff | app/actions/sqlite_store.py:1304-1469 | in every reachable state: a first decision goes through if and only if, on the version it decides, the change is one, keeps the currency and is in order, and the same money conditions hold; each refusal with its error |
| ActionMeaning.FirstDecidedRows | app/actions/sqlite_store.py:1379-1549 | what it writes: the decision, the states of approval and proposal, for a change one version with its content and the next number, and the audit entries; nothing else |
| ActionMeaning.RecordedIff | app/actions/sqlite_store.py:2131-2290 | for any tables: an unfinished execution is recorded as done if and only if its rows are in order, the money still fits, in sums, and no record repeats its identifier, execution or version; and the error when the money does not |
| ActionMeaning.RecordedRows | app/actions/sqlite_store.py:2239-2430 | what that writes: one record, the finished execution, proposal and run; the order is marked refunded, and the result says so, if and only if a refund brings the sum of its refunds to its total; no other order changes |
| ActionMeaning.RecordedAgain | app/actions/sqlite_store.py:2164-2196 | recording a finished execution again repeats its result and writes nothing |
| ActionMeaning.FailureRecorded | app/actions/sqlite_store.py:2459-2578 | when a failure goes through, and the rows of execution, proposal, run and audit log it leaves; retryable failures leave the run open |
| ActionMeaning.WorkflowFailureRecorded | app/actions/sqlite_store.py:2581-2661 | the same for a failure of the workflow, which leaves executions alone |
| ActionMeaning.ClaimedAgain | app/actions/sqlite_store.py:1761-1843 | a claim under a key that has an execution returns it, claims it again after a retryable failure with one attempt more, or is refused after any other |
| ActionMeaning.ClaimedFirst | app/actions/sqlite_store.py:1845-1916 | a claim under a new key goes through if and only if the version is one of the proposal and unexecuted, the proposal may execute and no other of its order and type is active, and then inserts a first attempt |
| ActionMeaning.Reclaiming | app/actions/sqlite_store.py:1918-1988 | taking over: only what is claimed or running, with one attempt more |
| ActionMeaning.Transitions | app/actions/sqlite_store.py:1043-1117 | a run is moved if and only if the caller expects its status, the edge is one of the table, and a failure names an error; with the row it leaves |
| ActionMeaning.Appending | app/actions/sqlite_store.py:498-561 | an audit entry is appended if and only if run, proposal and user belong together |
| ActionStore.Store.CreateWorkflow | app/actions/sqlite_store.py:705-973 | the branches and inserts in their order commit exactly the specified tables or roll back with the specified error, and keep the invariants |
| ActionStore.Store.ResolveDecidedVersion | app/actions/sqlite_store.py:1587-1669 | which version a decision decides, and whether a new version row is needed, or the error |
| ActionStore.Store.MaxVersionNumber | app/actions/sqlite_store.py:1711-1757 | the highest version number of the proposal, 0 without versions |
| ActionStore.Store.DecideApproval | app/actions/sqlite_store.py:1304-1549 | first decision, replay and refusal commit exactly the specified tables or leave them alone |
| ActionStore.Store.ClaimExecution | app/actions/sqlite_store.py:1761-1916 | a claim finds, reopens or inserts the execution of a key, moves the proposal and audits the attempt, or leaves the tables alone |
| ActionStore.Store.ReclaimInterruptedExecution | app/actions/sqlite_store.py:1918-1988 | takes over a claimed or running row with one more attempt, returns an ended row as it is |
| ActionStore.Store.MarkExecutionRunning | app/actions/sqlite_store.py:2095-2129 | moves a claimed row to running and nothing else |
| ActionStore.Store.RecordExecutionSuccess | app/actions/sqlite_store.py:2131-2430 | writes the record, the finished execution, proposal, run, order and audit entries together or not at all, and replays a finished execution |
| ActionStore.Store.RecordExecutionFailure | app/actions/sqlite_store.py:2459-2578 | fails execution, proposal and run together or not at all |
| ActionStore.Store.RecordWorkflowFailure | app/actions/sqlite_store.py:2581-2661 | fails a running run and its proposal together or not at all |
| ActionStore.Store.TransitionRun | app/actions/sqlite_store.py:1043-1117 | moves a run along an edge the caller expects, with its completion stamp, or leaves the tables alone |
| ActionStore.Store.TransitionProposal | app/actions/sqlite_store.py:564-595 | moves a proposal from a permitted status, unless another active proposal of the order and type forbids it |
| ActionStore.Store.TransitionRunRow | app/actions/sqlite_store.py:598-658 | sets status, error and completion of a run together |
| ActionStore.Store.AppendAudit | app/actions/sqlite_store.py:498-561 | an audit entry is appended only for an existing run and a proposal that belongs to it |
| IdempotencyKey.BuildKeyInjective | app/actions/executor.py:74-90 | identifiers without a colon have the same key if and only if they are the same |
| IdempotencyKey.UnambiguousIff | app/actions/executor.py:74-90 | the exact condition for all identifiers: a key belongs to no others if and only if none of the three has a colon |
| IdempotencyKey.ColonsCollide | app/actions/executor.py:74-90 | two different chains with one key text |
| IdempotencyKey.KeyTextDeterminesKey | app/actions/executor.py:58-71 | comparing key texts, as the lock table and the unique column do, is comparing keys |
| IdempotencyKey.KeySpells | app/actions/executor.py:74-90 | the text of a key, field by field |
| ExecutorTheorems.NextKeepsSafe | app/actions/executor.py:247-335 | a step of any call, an exception, a crash or a transaction of anyone else keeps the process invariant: consistent tables, claims only of decided chains, locks agreeing with their holders, what each call read still true |
| ExecutorTheorems.ReachableIsSafe | app/actions/executor.py:247-335 | so it holds in every reachable state, over any interleaving of any number of calls and crashes |
| ExecutorMachine.OneChain | app/actions/executor.py:339-401 | a run has one chain of proposal, approval and decided version, whenever it is loaded |
| ExecutorSafety.KeyMatchesChain | app/actions/executor.py:259-287 | the chain loaded again inside the lock is the one the lock was taken for |
| ExecutorTheorems.ReclaimTakesOrphan | app/actions/executor.py:288-335 | a call about to reclaim takes over a claimed or running row on which no other call is at work |
| ExecutorTheorems.SideEffectsExclude | app/actions/executor.py:58-71 | no two calls are past the claim of one version at the same time |
| ExecutorTheorems.RecordsFollowDecisions | app/actions/executor.py:339-401 | every record is of the decided and current version of its proposal and repeats its amount, currency and reason |
| ExecutorTheorems.OneRecordPerVersion | app/actions/executor.py:276-335 | each version, and each proposal, has at most one record in every reachable state |
| ExecutorTheorems.FullRefundsPayOut | app/actions/sqlite_store.py:390-398 | once a full refund is recorded the refunds of its order sum to exactly its total and the order stays refunded |
| ExecutorTheorems.FullRefundTakesTheRest | app/actions/executor.py:426-617 | the executor's own recording of a full refund, in any reachable state with any other calls beside it, records exactly what is left of the order, leaves nothing and marks the order refunded |
| ExecutorTheorems.ResultsAgree | app/actions/executor.py:404-423 | any two calls for one run that return a result, at any times, return the same record and flag |
| ExecutorTheorems.WorkIsDoneOnce | app/actions/executor.py:276-335 | of the calls for one run since the last crash of the process at most one did the work rather than replaying it |
| ExecutorPromises.WorkIsNeverRedone | app/actions/executor.py:276-335 | once a call has done the work, no later call for its run does it again, also after crashes |
| ExecutorAlone.RankFalls | app/actions/executor.py:247-335 | every step brings a call closer to its end: a call makes at most 24 steps |
| ExecutorAlone.FailureInjector.Check | app/actions/executor.py:117-133 | fails exactly while its counter is positive, and counts down |
| ExecutorAlone.Executor.LoadApprovedChain | app/actions/executor.py:339-401 | the reads and checks in their order give the approved chain or the first error |
| ExecutorAlone.Executor.Execute | app/actions/executor.py:247-275 | an undisturbed call of the code leaves the tables and the answer that the steps of the machine lead to |
| ExecutorAlone.Executor.ExecuteWithLock | app/actions/executor.py:276-335 | the same from inside the lock |
| ExecutorAlone.Executor.RunClaimed | app/actions/executor.py:426-617 | mark running, run the adapter, record success or failure, as the machine does |
| ExecutorRetry.ReplayIsStable | app/actions/executor.py:404-423 | once the execution is done a call answers with its stored result and writes nothing |
| ExecutorRetry.ReplayAfterAnything | app/actions/executor.py:404-423 | the same after any further transactions |
| ExecutorRetry.FailedCycle | app/actions/sqlite_store.py:1800-1841 | a retryable failure and a resumption leave the run ready with one attempt more and no money moved |
| ExecutorRetry.CyclesStayReady | app/actions/sqlite_store.py:1800-1841 | so do any number of them |
| ExecutorPromises.ReplayForever | app/actions/executor.py:404-423 | once the execution is done, every later call returns the same record with no state change, after any calls, crashes and transactions in between |
| ExecutorPromises.RetriesEndInSuccess | app/actions/executor.py:117-133 | from any reachable state in which the run may execute: after k retryable failures and resumptions one more call succeeds, with k + 1 more attempts and exactly one new record, the money, in sums, and active-proposal index permitting; the order is marked refunded exactly if nothing is left |
| ExecutorMeaning.RecordingIff | app/actions/executor.py:542-593 | the executor's own recording, in any reachable state with anything beside it, goes through if and only if the proposal is still open, the amount still fits the order, in sums, and the record is new; when the money does not fit the tables stay and the call goes on to fail the execution for good with the error that says why |
| ExecutorMeaning.RecordingStep | app/actions/executor.py:542-593 | what it leaves: one record that repeats the decided version, and the order marked refunded, and the answer saying so, if and only if the refunds of the order now add up to its total |
| ExecutorMeaning.FailingStep | app/actions/executor.py:595-617 | failing an execution fails proposal and run with it, under the stable code of the error, unless something else has ended them; the caller sees the error itself |
| ExecutorMeaning.AdapterStep | app/actions/executor.py:450-541 | the adapter is asked once and its failure is retryable |
| ExecutorMeaning.ReadStep | app/actions/executor.py:288-301 | inside the lock a finished execution is answered from its result, and otherwise a claim is made if the run was running when it was read |
| ExecutorMeaning.ClaimStepAgain | app/actions/executor.py:302-325 | an execution found by the claim is taken over if unfinished, answered from if finished, claimed again after a retryable failure, and refused after any other |
| ExecutorMeaning.ClaimStepFirst | app/actions/executor.py:302-308 | without one, a first attempt is inserted if and only if the proposal permits it |
| ExecutorMeaning.ReclaimStep | app/actions/executor.py:309-325 | taking over adds an attempt, if the proposal is approved or executing |
| ExecutorMeaning.MarkingStep | app/actions/executor.py:326-335 | a claimed execution is marked running, and nothing else |
| ExecutorMeaning.UnapprovedIsRefused | app/actions/executor.py:339-401 | a call for a run without an approving decision ends in the error that says so and writes nothing |
| ActionService.SubmissionIsFinal | app/actions/service.py:394-487 | with the service's own changes decisions stay final after any other transactions: the same submission by a member replays, any other is refused, one whose changes cannot be built with the error of building them, and none changes the tables |
| ActionService.ResubmissionReplays | app/actions/service.py:498-570 | resubmitting a decision, by whoever is a member then, with changes built again from the rows, returns the first decision with the tables unchanged |
| ActionService.SubmissionRefused | app/actions/service.py:394-545 | what never reaches the store: a decider who is no administrator, changes with any decision but a changed approval, a changed approval without, a scope on a compensation, an amount that is not positive |
| ActionService.SubmissionAsks | app/actions/service.py:498-570 | every other submission asks the store for the content that the changes ask for: amount, reason, text and scope are those of the changes where set and the requested ones otherwise, the currency is the requested one, a coupon is for 30 days |
| ActionService.ChangedApprovalRows | app/actions/service.py:498-570 | so a first changed approval leaves one new version of just that content, which the decision names, and the requested version as it was |
| ActionService.ResumableIff | app/actions/service.py:698-730 | a run not succeeded may be resumed if and only if it has not ended and does not wait for a missing decision |
| Headings.JoinLines | app/knowledge/document_loader.py:187-227 | splitting at line breaks and joining again gives the text back |
| Headings.HeadingIff | app/knowledge/document_loader.py:40-55 | the scan of a line finds a heading if and only if the line has the parts of the pattern, and then its level and title are those of any such parts |
| Headings.OpenLinesIff | app/knowledge/document_loader.py:212-222 | a line is kept if and only if it is a heading and no heading since has its level or a smaller one |
| Headings.PopIsShallower | app/knowledge/document_loader.py:214-217 | popping the end of the stack keeps exactly the headings of smaller level |
| Headings.StackIsOpenLines | app/knowledge/document_loader.py:212-222 | after any prefix of the lines the stack is the open headings in order |
| Headings.PathReads | app/knowledge/document_loader.py:199-210 | a heading path cut at its slashes is the titles of the open headings from the outermost in |
| DocumentLoader.ExtractMarkdownSections | app/knowledge/document_loader.py:187-227 | the loop with its stack and buffer gives the sections of the declarative spans |
| DocumentLoader.SectionsAreRuns | app/knowledge/document_loader.py:187-227 | the spans are maximal runs between headings, in order, under the path of the last heading, and cover every line with text |
| DocumentLoader.SectionsInText | app/knowledge/document_loader.py:187-227 | each section stands in the text at its true start, after the end of the one before |
| DocumentLoader.NormalizeIsIdempotent | app/knowledge/document_loader.py:128-153 | normalised text has no carriage return and normalises to itself |
| DocumentLoader.NormalizesPlain | app/knowledge/document_loader.py:144 | a text without carriage return is its own normalisation |
| DocumentLoader.NormalizesCrLf | app/knowledge/document_loader.py:144 | the first Windows line break becomes one line feed, and what follows it is normalised |
| DocumentLoader.NormalizesCr | app/knowledge/document_loader.py:144 | so does a single carriage return; with the two before this determines the normalised text |
| DocumentLoader.SplitAtTerminators | app/knowledge/document_loader.py:144 | every text is lines under some mix of the three line breaks |
| DocumentLoader.NormalizesLines | app/knowledge/document_loader.py:144 | and the normalised text has exactly those lines |
| DocumentLoader.LoadMeans | app/knowledge/document_loader.py:128-153 | every Markdown or plain upload is refused if it is over 2 MiB, no text, or blank on every line, and otherwise loads as exactly its lines, with the sections of Markdown or the whole as one section |
| DocumentLoader.ExtractedMeans | app/knowledge/document_loader.py:156-184 | the same for what the parsing service makes of a Word or PDF upload, which fails without one |
| DocumentLoader.SizeGrows | app/knowledge/document_loader.py:133-134 | the size is the number of bytes of the UTF-8 encoding |
| DocumentLoader.NormalizeShrinks | app/knowledge/document_loader.py:128-153 | normalising never makes the encoded text larger |
| DocumentLoader.ReloadRebuilds | app/knowledge/ingestion.py:480-500 | reloading the stored text gives the same document, always for Markdown and plain text, and for extracted text exactly when its encoding fits the size limit |
| Outline.ExtractOutline | app/knowledge/outline.py:46-80 | the loop with its stack and running offset gives the item of every heading line |
| Outline.OutlineStandsInText | app/knowledge/outline.py:46-80 | the offset of every item is the start of a line that is the heading the item says |
| Outline.LastItemPath | app/knowledge/outline.py:46-80 | the path of the last item is the path of the stack |
| Outline.SectionPathIsLastItem | app/knowledge/document_loader.py:199-227 | the path of a section is that of the last outline item before it, none if there is none or it is empty |
| Chunking.Find | app/knowledge/chunking.py:93-104 | the first occurrence at or after an offset, and none exactly if there is none |
| Chunking.OverlapStart | app/knowledge/chunking.py:192-211 | an overlap starts inside the section, at or before where the chunk before it ended |
| Chunking.KnowledgeChunker.LocateSections | app/knowledge/chunking.py:85-123 | the forward search gives the span of every section with content, or fails |
| Chunking.KnowledgeChunker.LocatePieces | app/knowledge/chunking.py:125-152 | the cursor loop gives the start of every piece that has text |
| Chunking.KnowledgeChunker.EmitChunks | app/knowledge/chunking.py:153-186 | the loop over the starts gives the chunks with their overlaps and ordinals |
| Chunking.KnowledgeChunker.Split | app/knowledge/chunking.py:69-190 | the nested loops give the specified chunk list or the specified error |
| LosslessChunking.LoadedSectionsAreFound | app/knowledge/chunking.py:93-104 | for every document of the loader the section search succeeds, with increasing disjoint spans at or before the true positions |
| SectionSearch.SearchIsExactIff | app/knowledge/chunking.py:85-104 | for any sections that stand in the text one after the other: the search finds each at its true start if and only if none of them occurs in the gap before it |
| SectionSearch.LoadedSearchIsExactIff | app/knowledge/chunking.py:85-104 | the same for every document of the loader, with the true starts of its sections |
| SectionSearch.EchoHasOneSection | app/knowledge/document_loader.py:187-227 | what the loader makes of the two lines "# Refund" and "Refund" |
| SectionSearch.SearchMayStopEarly | app/knowledge/chunking.py:85-104 | for that document the search finds the body inside the heading, at 2 instead of 9 |
| LosslessChunking.PiecesAreFound | app/knowledge/chunking.py:125-152 | under the splitter contract every piece is found at its true offset |
| LosslessChunking.SectionIsLossless | app/knowledge/chunking.py:153-186 | the chunks of a span are slices of the text without gaps, and without their overlaps they rebuild it from its first piece to its end, with only white space before |
| LosslessChunking.SectionOverlaps | app/knowledge/chunking.py:153-211 | one chunk for every piece, up to the next one, with its own token count, and each but the first starting at the token tail of what its section has before the piece |
| LosslessChunking.SplitIsLossless | app/knowledge/chunking.py:69-190 | for every loaded document splitting succeeds if and only if some section has content, ordinals run from 0, each section is rebuilt by its group of chunks, and its later chunks start at the token tail of what precedes them |
| LosslessChunking.UploadIsLossless | app/knowledge/chunking.py:69-190 | so it is for every upload that the loader accepts, of any type |
| IngestionSteps.CallFits | app/knowledge/ingestion.py:768-955 | every step of every call, failed or not, keeps what the rows promise and what the call knows |
| IngestionTheorems.NextKeeps | app/knowledge/ingestion.py:202-440 | a step of any call, a new call, a crash, a recovery or a status change keeps the process invariant and undoes nothing settled |
| IngestionTheorems.ReachableIsSafe | app/knowledge/ingestion.py:202-440 | so it holds in every reachable state |
| IngestionTheorems.StagedOrParsed | app/knowledge/sqlite_store.py:562-593 | in every reachable state a version has its staged upload or its parsed text, and exactly one |
| IngestionTheorems.RestartRequeuesEverything | app/knowledge/sqlite_store.py:814-893 | after a crash, recovery sets exactly the jobs that had not ended back to queued, returns exactly those, fails none, and leaves documents and versions alone; the worker's bounded queue takes those of them that it accepts |
| IngestionTheorems.NoJobLosesItsSource | app/knowledge/sqlite_store.py:814-893 | no job of any reachable state has failed as interrupted or for a missing upload |
| IngestionTheorems.VersionNumberingHolds | app/knowledge/sqlite_store.py:468-482 | in every reachable state the versions of a document are numbered from 1 without gap or repetition |
| IngestionTheorems.SourceIsNeverMissing | app/knowledge/ingestion.py:438-478 | a call about to read the upload of its version always finds it, and no call is ever about to record the failure for a missing one |
| IngestionTheorems.ParsedOnce | app/knowledge/ingestion.py:438-478 | a call about to parse works on a version without text, and nobody else is parsing that version |
| IngestionTheorems.TextNeverChanges | app/knowledge/sqlite_store.py:562-593 | a version with text keeps its row through everything that follows |
| IngestionTheorems.ActiveIsComplete | app/knowledge/ingestion.py:840-905 | at every point of every run the active version of a document has its text, exactly the chunker's chunks of it, and a vector point for each |
| IngestionTheorems.OnlyActivationShows | app/knowledge/sqlite_store.py:895-944 | every step but activation, every failure, crash and restart leaves the set of searchable versions unchanged |
| IngestionOutcomes.PipelineEnds | app/knowledge/ingestion.py:818-913 | a pipeline that nothing disturbs fails its job, and its document if none of its versions is active, when the text cannot be split or embedded or its points not all written; otherwise it stores the chunks and exactly their points and activates the version |
| IngestionOutcomes.JobEnds | app/knowledge/ingestion.py:380-500 | a queued job of any reachable state that nothing disturbs counts an attempt, reloads the stored text or parses the staged upload and records its text in its place, fails if it cannot or if another version of the document has the text, and otherwise ends as its pipeline does |
| IngestionOutcomes.NewUploadRuns | app/knowledge/ingestion.py:202-233 | a new upload in the request that nothing disturbs writes nothing if it cannot be loaded, and otherwise runs a pipeline over the first version of a new document under a running job |
| IngestionOutcomes.NewUploadQueues | app/knowledge/ingestion.py:286-325 | a new upload for the worker writes nothing if it is over 2 MiB, blank or no text, and otherwise leaves document, version with the bytes, queued job, queue entry and receipt |
| IngestionOutcomes.FurtherUploadRefused | app/knowledge/ingestion.py:503-541 | an upload to a document that is not there or of another type, or one for the worker that is not uploadable, ends at once and writes nothing |
| IngestionOutcomes.FurtherUploadRuns | app/knowledge/ingestion.py:235-285 | new bytes with a new text, uploaded undisturbed in the request, lead to a pipeline over a further version with the next number under a running job |
| IngestionOutcomes.SameBytesStep | app/knowledge/ingestion.py:543-577 | a call that finds its bytes in a version is answered with that version's newest job, also an unfinished one, unless that has failed |
| IngestionOutcomes.SameTextStep | app/knowledge/ingestion.py:665-766 | a call that finds its text in a version is answered with that version's newest job if it has succeeded, and otherwise goes on, writing nothing at that step |
| Reuploads.ReservesIff | app/knowledge/ingestion.py:327-375 | in every reachable state a queued upload reserves a version if and only if no version of the document has its bytes then; otherwise it adopts one that has them and changes nothing |
| Reuploads.QueuesIff | app/knowledge/ingestion.py:327-375 | whatever happens elsewhere between its two transactions, it queues a job of its own version if and only if no version had its bytes when it reserved |
| Reuploads.QueuedReuploadNeverRetries | app/knowledge/ingestion.py:543-596 | a whole queued call for bytes that the document has, under any interleaving: no step of it ever writes anything, and its answer is the receipt of a version with those bytes, whatever became of its job |
| Reuploads.FailedReceiptIsReachable | app/knowledge/ingestion.py:543-596 | such a call, answered with the job that failed, can be reached from the empty store |
| Reuploads.SynchronousAnswersHaveNotFailed | app/knowledge/ingestion.py:543-577 | an upload in the request is never answered with a version whose latest job has failed: it raises, runs a pipeline of its own, or is answered with one that has not |
| Reuploads.SynchronousReuploadRetries | app/knowledge/ingestion.py:235-285 | bytes whose versions have failed jobs only, uploaded again in the request, lead the call, when nothing interferes, to a pipeline under a new running job over a version with their text, unless a version with that text has a job that succeeded |
| IngestionTheorems.CitationsQuoteTheText | app/knowledge/chunking.py:169-184 | a chunk of an active version is the slice of its text that its offsets name, and its ordinal its position |
| IngestionTheorems.PipelineChunksTheLoaded | app/knowledge/ingestion.py:818-858 | the document that the pipeline chunks, made of the stored text and the source type, is the one that the loader made of the upload |
| Citations.ResolvedIff | app/knowledge/sqlite_store.py:1051-1083 | a candidate resolves if and only if it names a chunk of a version active at that moment, and to one row only |
| Citations.CitationsStayTrue | app/knowledge/retrieval.py:379-397 | every citation built from resolved rows quotes the text of a version active then, still quotes it after anything that happens later, names its chunk, document and path, and is numbered from C1 |
| KnowledgeStore.Store.CreateDocument | app/knowledge/sqlite_store.py:165-207 | a new processing document, or nothing if the identifier is taken |
| KnowledgeStore.Store.CreateParsedVersion | app/knowledge/sqlite_store.py:333-395 | a row with the next number, with text and without upload, or the version that already has that text |
| KnowledgeStore.Store.CreateVersion | app/knowledge/sqlite_store.py:397-466 | a row with the next number, with the upload and without text, or the version that already has that upload |
| KnowledgeStore.Store.NextVersionNumber | app/knowledge/sqlite_store.py:468-482 | one more than the highest number of the document's versions, 1 without versions |
| KnowledgeStore.Store.RecordVersionContent | app/knowledge/sqlite_store.py:562-593 | text appears and upload disappears together, exactly unless the row is missing or another version has the text |
| KnowledgeStore.Store.ClaimJob | app/knowledge/sqlite_store.py:776-812 | a job is claimed if and only if it is queued, with one attempt more |
| KnowledgeStore.Store.RecoverStaleJobs | app/knowledge/sqlite_store.py:814-893 | the loop over the unfinished rows, in any order, leaves the specified tables and returns exactly the queued jobs |
| KnowledgeStore.Store.FailIngestion | app/knowledge/sqlite_store.py:895-944 | the job, if it has a row, and the document, without an active version, fail together |
| KnowledgeStore.Store.ReplaceChunks | app/knowledge/sqlite_store.py:946-1001 | the chunks of the version are replaced and nothing else |
| KnowledgeStore.Store.ActivateVersion | app/knowledge/sqlite_store.py:1156-1224 | document and job change together if and only if all three rows belong together, else nothing changes |
| IngestionService.RankFalls | app/knowledge/ingestion.py:380-436 | a job makes at most twelve steps |
| IngestionService.Service.RunJob | app/knowledge/ingestion.py:380-436 | an undisturbed job leaves the tables that the steps of the machine lead to, and runs exactly if the job was queued |
| IngestionService.Service.RunClaimed | app/knowledge/ingestion.py:438-478 | the content of a version is reloaded or parsed, then put through the pipeline, as the machine does |
| IngestionService.Service.RunPipeline | app/knowledge/ingestion.py:818-913 | chunk, replace, upsert, activate, with the failure recorded as the machine does |
| IngestionService.Service.FailReserved | app/knowledge/ingestion.py:915-955 | recording a failure leaves the tables of the machine's step, also when it fails itself |
| TableMarkdown.CleanCellIsOneLine | app/knowledge/markdown_normalizer.py:117-122 | a cleaned cell has no line break, before and after escaping |
| TableMarkdown.CleanTextIs | app/knowledge/markdown_normalizer.py:117-122 | a cell says its words with one space between them, whatever white space stood around them |
| TableMarkdown.BlankCell | app/knowledge/markdown_normalizer.py:117-122 | a cell of white space says nothing |
| TableMarkdown.EscapeInverse | app/knowledge/markdown_normalizer.py:117-122 | unescaping inverts escaping for any text |
| TableMarkdown.RowRoundTrip | app/knowledge/markdown_normalizer.py:124-127 | splitting a rendered row at unescaped pipes gives back exactly its cells, for any texts |
| TableMarkdown.TableRoundTrip | app/knowledge/markdown_normalizer.py:129-150 | a rendered table is rectangular and reads back as its cells padded to the widest row |
| TableMarkdown.DelimiterReads | app/knowledge/markdown_normalizer.py:129-150 | the delimiter row has one mark per column |
| TableMarkdown.RecoveredIff | app/knowledge/markdown_normalizer.py:129-150 | a table with rows is recovered if and only if it has a cell |
| TableMarkdown.TableParser.HandleStartTag | app/knowledge/markdown_normalizer.py:66-80 | the callback moves the five fields as specified |
| TableMarkdown.TableParser.HandleEndTag | app/knowledge/markdown_normalizer.py:82-98 | cells, rows and the outermost table close where specified |
| TableMarkdown.TableParser.HandleData | app/knowledge/markdown_normalizer.py:100-105 | data goes to the open cell, to the text outside tables, or nowhere |
| TableMarkdown.DocumentConverts | app/knowledge/markdown_normalizer.py:66-115 | text between flat tables comes through unchanged and every table in its place as the rendering of its cleaned cells |
| TableMarkdown.InnerTable | app/knowledge/markdown_normalizer.py:66-105 | a table inside a cell, at any depth, is flattened: its data go to the cell around it and nothing else changes |
| TableMarkdown.DocumentTableReads | app/knowledge/markdown_normalizer.py:66-150 | a flat table of a document comes through as a pipe table that reads back as its cell texts, padded, if and only if it has no rows or some row has a cell |
| Retrieval.CanonicalCandidates | app/knowledge/retrieval.py:281-293 | every candidate chunk has its first occurrence of highest score, with its rank |
| Retrieval.OneCanonical | app/knowledge/retrieval.py:281-293 | and only one |
| Retrieval.SortKeepsTies | app/knowledge/retrieval.py:295-318 | sorting is stable: elements that tie keep their order |
| Retrieval.SortLeavesTies | app/knowledge/retrieval.py:295-318 | what ties stands after the sort in the order it had before |
| Retrieval.RankUnique | app/knowledge/retrieval.py:295-318 | the loop keeps the first occurrence of every chunk in score order |
| Retrieval.RankedUniquely | app/knowledge/retrieval.py:295-318 | so every resolved chunk is ranked once, higher scores first, equal scores in the order resolved, and nothing else is |
| Retrieval.SelectWithinBudget | app/knowledge/retrieval.py:320-340 | the loop makes the greedy choice and notes the reason of every chunk |
| Retrieval.ChoiceWithinBudget | app/knowledge/retrieval.py:320-340 | at most 5 chunks and 3000 tokens are chosen |
| Retrieval.ChosenIff | app/knowledge/retrieval.py:320-340 | a chunk is chosen if and only if at its turn neither limit would be exceeded |
| Retrieval.ChoiceIsGreedy | app/knowledge/retrieval.py:320-340 | in numbers: the chosen positions ascend, and a position is one of them if and only if at its turn fewer than 5 are chosen and their tokens with its own are at most 3000 |
| Search.ParseResponse | app/knowledge/reranking.py:140-169 | a response is accepted if and only if it has as many entries as chunks, each readable, finite, in range and once |
| Search.AcceptedIsPermutation | app/knowledge/reranking.py:140-169 | an accepted response reorders the chunks: none lost, none repeated |
| Search.Rerank | app/knowledge/reranking.py:88-139 | the answer of the default or of the service within its limits, always a reordering of the chunks |
| Search.RankingIsOrdered | app/knowledge/retrieval.py:204-216 | what is selected from is the reranker's answer with higher rerank scores first, then higher fused scores, and full ties in the order of the answer |
| Search.BuildTrace | app/knowledge/retrieval.py:342-377 | one entry per candidate, with its rank, score, status and reason, and no key is ever missing |
| Search.TraceMatchesCitations | app/knowledge/retrieval.py:342-377 | the entries marked selected and the citations match one to one |
| Search.SearchOnce | app/knowledge/retrieval.py:169-230 | one search, in numbers: each resolved chunk once with its highest score among the candidates goes to the reranker; it fails exactly if the service cannot be sent them or does not name each once; the answer is sorted by rerank score, fused score and answer order; the citations are the greedy choice within 5 chunks and 3000 tokens; and every entry of the trace says why |
| CitationNumbers.DecimalInjective | app/agent/runner.py:172-205 | different numbers have different texts |
| CitationNumbers.IdReads | app/agent/runner.py:172-205 | the identifier of citation n is C and the digits that read as n, without a leading zero |
| TurnMeaning.ReturnedCallLeaves | app/agent/runner.py:457-488 | a call that returns leaves one value, which its event, the reply the model reads and, of a search, the turn itself all hold: the result, with the citations of a search numbered on from the last and nothing else of it changed; and of a proposal its nine fields as a pending approval |
| TurnMeaning.FailedCallLeaves | app/agent/runner.py:384-456 | a call that fails leaves the events up to its failure and a reply with the code of the failure |
| TurnMeaning.CitationsAreTold | app/agent/runner.py:457-488 | every search result from which an answered turn takes its citations stands, under the same numbers, in a reply that the model has read |
| TurnMeaning.AnswerLeaves | app/agent/runner.py:313-351 | an answer leaves its message and, if and only if it is incomplete, one event under the first search that says what it cited in vain and whether it cited nothing |
| TurnMeaning.SummaryTells | app/agent/runner.py:88-124 | the summary of an answered turn has the strategy of its first search, the best evidence of any, and the sum of the latencies |
| TurnMeaning.LatenciesAdd | app/agent/runner.py:88-126 | latencies add up over any division of the searches, and one that cannot be read spoils the sum |
| TurnMeaning.OneLatency | app/agent/runner.py:88-126 | one latency: a number as it is, a fraction towards zero, nothing for what is empty, and an error for what cannot be read |
| TurnLoop.AgentTurn.RunCall | app/agent/runner.py:384-488 | one tool call, in each of its outcomes, adds its events, payload, pending approval and reply in the order of the code, and stops where something raises: at an identifier, a name or arguments, at any event, or at its result |
| TurnLoop.AgentTurn.TakeResult | app/agent/runner.py:457-488 | a result is checked, renumbered and kept if it is a search, noted if it is a proposal, told to the listener, and then written |
| TurnLoop.AgentTurn.RunCalls | app/agent/runner.py:384-488 | the calls of a message are carried out in order, up to one that raises |
| TurnLoop.AgentTurn.Run | app/agent/runner.py:249-488 | the loop, whatever the model, the tools and the listener do, leaves exactly the state, the number of model calls and the outcome of the recursive definition of a turn, also when it raises |
| TurnLoop.AgentTurn.Finish | app/agent/runner.py:313-351 | a plain answer: the message, the check of its citations, the citation.invalid event and the response in that order, each of which may raise |
| TurnLoop.AgentTurn.Degrade | app/agent/runner.py:276-290 | the fallback: the message, then the response, which raises if its model does not take a pending approval |
| TurnTheorems.CallsAreBounded | app/agent/runner.py:293-364 | the model is asked at most max_tool_rounds + 1 times |
| TurnTheorems.TranscriptShape | app/agent/runner.py:384-488 | the messages added are rounds of an assistant message with calls and one reply per call in order; then, exactly by how the turn ends, nothing, one plain assistant message, or a round that breaks off at the call that raised |
| TurnTheorems.PendingIsReturned | app/agent/runner.py:276-290 | however a turn ends, what it holds as pending is what its events announce, and its transcript shows nothing else; an answer returns it, and then the transcript shows all of it; only an exception that nothing handles ends a turn with something pending |
| TurnTheorems.BreaksIff | app/agent/runner.py:293-488 | a turn ends with an exception that nothing handles if and only if, where it stops, the listener raised, the first unanswered call breaks, the last reply cannot be made a response, or the response of the model cannot be read |
| TurnTheorems.ApprovalsAreLostIff | app/agent/runner.py:293-488 | exactly when announced approvals do not reach the caller, for every model, every tools and every listener: if and only if the loop breaks so after something was announced; an answer returns all of them |
| TurnTheorems.ApprovalsCanBeLost | app/schemas/chat.py:9-33 | one turn for each of the five exceptions in which an approval is announced and lost, among them an approval that the response model never takes, and one in which it is returned |
| TurnTheorems.TurnNumbers | app/agent/runner.py:172-205 | the citations of all searches of a turn are numbered consecutively from C1 |
| TurnTheorems.IdsAreUnique | app/agent/runner.py:172-205 | so no two share a number |
| TurnTheorems.TurnPromises | app/agent/runner.py:249-488 | all of this for every turn, also with a limit that is refused: bounded calls, the shape of the transcript, approvals returned or none announced unless an exception is not handled, consecutive citation numbers |
| TurnLoop.DisplayForTurn | app/application/chat_service.py:406-436 | the backwards scan gives the last plain assistant message, and no other, the completeness flag and exactly the citations whose content is not blank, in order |
| TurnTheorems.AnswerIsDisplayedLast | app/application/chat_service.py:406-436 | for an answered turn that is the last slot and no other |
| CitationCheck.ValidateFinalCitations | app/agent/runner.py:127-170 | the loops give the verdict of the definition: citations and unknown marks in order of first mention, the merged summary, and whether the answer is incomplete; and they raise exactly if the answer is not checkable |
| CitationCheck.CitationAllowlist | app/agent/runner.py:70-85 | the loops collect the citations by identifier, a later one replacing an earlier one, and raise exactly at data that is not an object, citations that cannot be iterated, or an identifier that cannot be a key |
| CitationCheck.AllowlistIsLast | app/agent/runner.py:70-85 | a citation looked up by its identifier is the last that any search returned under it |
| CitationCheck.BuildCitations | app/agent/runner.py:147-151 | the cited citations in order, raising exactly if one lacks a field of a citation or has one too many |
| CitationCheck.CitableIff | app/agent/runner.py:147-151 | which fields a citation must have and which it may have, by name |
| CitationCheck.MergeRetrievalSummaries | app/agent/runner.py:88-124 | the loops give the strategy of the first summary, their number, the best evidence and the sum of the latencies, or nothing without a summary, and raise exactly at data that is not an object or a latency that cannot be read as a number |
| TurnTheorems.EverySearchIsCounted | app/agent/runner.py:88-124 | the summary that the answer of a turn carries counts every search of the turn, and is absent only if there was none |
| TurnTheorems.TurnCheckableIff | app/agent/runner.py:70-170 | in a turn the check of an answer raises if and only if citations are neither empty nor iterable, a cited one has the wrong fields, or a latency cannot be read as a number |
| CitationCheck.MarksIff | app/agent/runner.py:127-170 | the marks found are exactly the marks the answer has |
| CitationCheck.MarksAreAccounted | app/agent/runner.py:70-85 | of a checkable answer every mark is returned if and only if some search of the turn returned its citation, and reported unknown otherwise |
| CitationCheck.VerdictInOrder | app/agent/runner.py:127-170 | returned citations and unknown marks stand in the order in which the answer first makes them, each once |
| CitationCheck.IncompleteIff | app/agent/runner.py:88-170 | a checkable answer is incomplete if and only if it cites what no search returned, or cites nothing that one did although some search brought sufficient evidence |
| TurnTheorems.VerdictIsOfTurn | app/agent/runner.py:323-351 | the verdict that a plain answer carries is that of its text and of all searches of the turn |
| TurnTheorems.AnswerResolvesUniquely | app/agent/runner.py:127-205 | a citation returned with the answer of a turn is that of exactly one search result of the turn |

## Left out

- Other organizations: the tables are those of one organization, so rows of others, and primary keys that collide across organizations, are not modelled.
- SQL, connections, write-ahead logging and JSON: a transaction is a function of the tables; JSON parameters are a datatype; identifiers are numbers.
- `create_workflow` inserts its run with an empty proposal column and fills it in: both happen inside one transaction, so only the final row can be seen.
- The error a violated unique index of active proposals becomes: outside `create_workflow` it is an integrity error without a name of its own, modelled as `ConstraintViolation`.
- The LangGraph graph, its runtime and checkpoints: an arbitrary caller of the store.
- ActionPromises.FullRefundEmptiesOrder: assumes that the version is the one its approval decided; the executor's own recording always is (`FullRefundTakesTheRest`), a caller that records a version nobody decided is not covered.
- ExecutorPromises.RetriesEndInSuccess: no other caller intervenes between the cycles; what others may do meanwhile is covered by the lemmas over all interleavings.
- Time stamps and ordering by time: only whether `completed_at` is set.
- Foreign keys that refuse to remove a membership: members may be removed at any time, which allows more runs than the schema does.
- Unicode in `strip`, `upper` and digits: ASCII letters and digits, and the white space that `Text` lists; a citation mark with other digits is not a mark.
- Hashes and name-based UUIDs: free of collisions, so a hash is what it hashes, and a chunk identifier is its version and ordinal.
- Scores: real numbers that are compared and nothing else; a score that is not finite is an own case.
- The splitter, tokenizer, extractors, embedding and vector store: only the contracts named above; `MAX_CHUNK_TOKENS` is not enforced by the code and not by the model.
- `ingestion_worker.py`: a step that picks a queued job; its bounded queue may refuse any job, during an upload and during recovery, and which ones it refuses is arbitrary.
- The newest job of a version by its time stamp: any job of the version may be taken for it, and what is proved holds whichever it is.
- Setting the status of a document: a step that may set any status at any time; activation sets it to active as the code does.
- IngestionTheorems.OnlyActivationShows: excludes that step, which shows or hides documents by intent.
- TableMarkdown.DocumentConverts: documents of text and flat tables; tags outside tables are dropped by the code, tables inside cells are flattened (`InnerTable`) and an unclosed cell swallows later text, and the tokenizer of the HTML parser is not part of this model.
- Blank-line compression after normalising extracted Markdown.
- Extractor internals for Word and PDF, and the message texts of errors.
- Adaptive search planning and assessment, and the recording of search events and latencies.
- Exceptions that nothing handles are told apart by where they arise, not by their class; interrupts that are no ordinary exceptions are not modelled.
- Results of tools are JSON values, with an input that says whether they can be written as text; the strategy of a summary is kept as it is instead of as text; of an event only kind, call, name and result.
- Reuploads.SynchronousReuploadRetries: says that the call retries when nothing interferes; what it may do under interference is bounded by `SynchronousAnswersHaveNotFailed`.
- CRUD of customers, orders, shipments, tickets, users and sessions, routers, schemas, configuration and the frontend: easy invariants only.
