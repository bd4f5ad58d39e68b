# Run orchestrator: a verified model of its core

The orchestrator drives *runs*: durable step machines, one versioned row per run, driven by competing workers that
claim due rows under a lease. A drive walks the run's plan through its steps, calls the ticket system, the resource
manager and the workflow engine, and ends in a poll, a retry with backoff, COMPLETED, FAILED or REJECTED. Delivery is
at least once: drives overlap, processes die between any two calls, saves are lost.

## How the model is laid out

**One drive as a machine.** `Drive.dfy` describes one `handle` call as a machine that stops at every call it makes to
the outside: the clock, the random source, a provider, the store. `NextCall` is the call it makes next, `Resume` how it
goes on with the answer. Since everything between two calls is one `Resume`, a kill or another worker falls exactly
between two of its steps. Every provider call has three outcomes (applied and returned; raised, not applied; raised,
but applied) and every save three (ok; stale; database error, committed or not).

**The code in its own form.** `WorkflowRuns.dfy`, `StepHandlers.dfy`, `Escalator.dfy`, `Executor.dfy`, `Worker.dfy`,
`RunStore.dfy`, `Services.dfy`, and the adapters in `Airflow.dfy`, `ServiceNow.dfy` and `BatchLookup.dfy` are classes
whose methods write fields in place and loop where the source loops. `Ports.dfy` stands for the outside: it answers
anything, and it only takes the call the machine makes next. So the verified contract of `RunExecutor.Handle` is that
the imperative code makes, call by call, the calls of one run of the machine and leaves the run object as the machine
leaves it; what is proved of the machine then holds of the code. On the other side `RunStore` is proved to do to a row
what `StoredRows.dfy` says, and its save to answer as the interleaved system below demands.

**Many drives.** `Histories.dfy` puts the machine into a system of one row, any number of drives with their loaded
copies, and a clock. Its moves are claims, loads, wakes, answers to calls, deaths and ticks, in any order; a call may get
any answer it can get. One thing is assumed: all workers read one clock, which does not go back. The order of the logged
start times needs that. The serial chain, finished rows and totality do not use it; the evidence behind calls, the engine keys,
the assertions and the sources of what a run knows of its engine do not depend on it either, but are proved together with the
bookkeeping and so share the assumption.

**The results**, with what each allows:

| result | file | allows |
|---|---|---|
| every history commits what a serial one does; finished rows never change | Histories.dfy | everything |
| `handle` is total, bounded, escalates at most once | Totality.dfy | every answer, every starting step |
| bookkeeping, gates, engine keys, asserts | Bookkeeping.dfy, Gates.dfy, Safety.dfy | everything, for runs made by a trigger |
| every call asks for what the run was triggered for | Requests.dfy | everything, for runs made by a trigger |
| a run is REJECTED exactly when its ticket was denied | Denials.dfy | everything, for runs made by a trigger |
| what a failed engine run, a denial, a refusal, a raised call or a pending answer comes to, up to the save | Verdicts.dfy | every answer after it |
| a drive acts on the engine run of its own attempt only | Provenance.dfy | everything, for runs made by a trigger |
| one incident per run, and what another one takes | Incidents.dfy, PagingAgain.dfy | wakes, and deaths of drives that have not paged; no overlap, no failed save. Without that: everything |
| when an engine run is left going while the next starts | EngineRuns.dfy | any answers; one drive after the other |
| when a record is left in flight | LeftInFlight.dfy | everything |
| when a handler's assertion fires | LegacyTrigger.dfy | everything |
| a rolled-back run never counts as done | Airflow.dfy | everything |
| termination within a computed number of `handle` calls | Termination.dfy | any provider failure; no wake, crash or failed save |
| a finished run matches its record | Records.dfy | any failure that means "not applied"; no release failure, overlap, crash or failed save |
| kills do not show, and two quiet drives finish the run | CrashEquivalence.dfy | any number of kills anywhere; no other fault, no overlap, no re-key |
| escalation isolates provider faults | Escalation.dfy | every pattern of failures |
| fairness of the queue, spacing of claims | Queue.dfy | any creations, wakes and saves of other runs |
| a lease keeps drives apart | Leases.dfy | deaths; no wake, no failed save, no drive longer than its lease |
| the interleaved system takes turns, so it ends and matches its records too | DrivesInTurn.dfy | as for a lease, and no death |
| orders are bounded | ServiceNow.dfy | calls that die or raise after any request; no overlap |
| retry delays | Retries.dfy | every draw |
| batch lookup refines single lookup | BatchLookup.dfy | every query text and store; distinct creation times per record |
| histories that break what the comments promise | Counterexamples.dfy, and beside each condition | stated in each |

**Where code and documentation differ**, the code is followed. `docs/01-external-contracts.md` and
`docs/09-design-safeguards.md` speak of a record left in a failed state; the code deletes a CREATE's record and puts an
UPDATE's or DELETE's back to READY. Comments that promise more than the code keeps (a lease that excludes other drives,
handler assertions guaranteed by the trigger, steps that are all crash-idempotent, one incident, one engine run at a time) are met
by histories that break them, and by the condition under which they hold: `Incidents.dfy` and `PagingAgain.dfy`, `EngineRuns.dfy`,
`LeftInFlight.dfy`, `LegacyTrigger.dfy`, `Leases.dfy` and `Counterexamples.FinalizingRepeatsUnlessMoved`.

Idempotency keys are structured values (run, step) and (run, attempt) rather than the strings built of them; times and
delays are reals; run ids, payloads and texts are opaque.

## Model

| member | source | states |
|---|---|---|
| Domain.IndexIsPosition | src/orchestrator/orchestration/plans.py:24-47 | a step has one position in its plan, and the position found is the one the plan holds it at |
| Executor.RunExecutor.Handle | src/orchestrator/orchestration/executor.py:48-71 | only the load can raise; a loaded run is driven by exactly one run of the machine from its start to its end, in at most 58 calls, with at most one escalation |
| Executor.RunExecutor.DriveRun | src/orchestrator/orchestration/executor.py:73-151 | the loop follows the machine from the first step to the poll, retry, ending or crash it comes to; each round brings it nearer its end |
| Executor.RunExecutor.NoteStart | src/orchestrator/orchestration/executor.py:86-89 | the log of started steps is written as the machine writes it, once per step |
| Executor.RunExecutor.NoteAttempt | src/orchestrator/orchestration/executor.py:90-92 | the attempt's clock is set when it is not running and kept when it is |
| Executor.RunExecutor.AttemptStep | src/orchestrator/orchestration/executor.py:86-138 | an attempt out of its budget fails without its handler; any other ends as its handler ends |
| Executor.RunExecutor.FinishStep | src/orchestrator/orchestration/executor.py:140-151 | a done step leads to the next one of the plan, to completion, or, outside the plan, to the crash path |
| Executor.RunExecutor.Conclude | src/orchestrator/orchestration/executor.py:148-151 | the completed run is saved with nothing scheduled |
| Executor.RunExecutor.OnStepError | src/orchestrator/orchestration/executor.py:153-197 | a failed attempt is counted, then retried or ends the run exactly as the machine decides |
| Executor.RunExecutor.BackOff | src/orchestrator/orchestration/executor.py:168-173 | one draw, one reading of the clock, one save |
| Executor.RunExecutor.GiveUp | src/orchestrator/orchestration/executor.py:184-197 | the run is marked failed, escalated, then saved |
| Executor.RunExecutor.CrashRun | src/orchestrator/orchestration/executor.py:199-222 | the crash path never raises, and never escalates a run that already failed |
| Executor.RunExecutor.RejectRun | src/orchestrator/orchestration/executor.py:237-245 | a denial releases the resource, then saves |
| Executor.RunExecutor.Schedule | src/orchestrator/orchestration/executor.py:247-250 | the run is saved due one delay after the clock's reading |
| Executor.RunExecutor.Save | src/orchestrator/orchestration/executor.py:252-270 | a stale save is dropped, any other failure raises, and only a save that went through moves the copy's version |
| Executor.RunExecutor.SaveQuietly | src/orchestrator/orchestration/executor.py:224-235 | the drive ends whatever the save comes to |
| StepHandlers.StepHandlers.Execute | src/orchestrator/orchestration/steps.py:91-101 | every handler makes the machine's calls, writes the machine's state and ends as the machine ends |
| StepHandlers.StepHandlers.CreateTicketStep | src/orchestrator/orchestration/steps.py:108-125 | a ticket that is there is not ordered again; a new one is ordered under the step's key and kept |
| StepHandlers.StepHandlers.ConfigureResourceStep | src/orchestrator/orchestration/steps.py:142-192 | a CREATE makes a record under the run's id, any other operation marks the one it acts on |
| StepHandlers.StepHandlers.CreateItsRecord | src/orchestrator/orchestration/steps.py:158-180 | the record's own id is kept when the answer carries one |
| StepHandlers.StepHandlers.AwaitApprovalStep | src/orchestrator/orchestration/steps.py:207-221 | approved is done, denied is a denial, anything else waits |
| StepHandlers.StepHandlers.ValidateResourceStep | src/orchestrator/orchestration/steps.py:246-280 | a refusal is a precheck failure, an unanswered question an ordinary one |
| StepHandlers.StepHandlers.RunEngineStep | src/orchestrator/orchestration/steps.py:287-309 | the engine is triggered under the attempt's key, then polled |
| StepHandlers.StepHandlers.PollEngine | src/orchestrator/orchestration/steps.py:310-336 | success is done, failure carries the kind the engine reported, or the last one known, or TASK |
| StepHandlers.StepHandlers.CaptureFinalVendorId | src/orchestrator/orchestration/steps.py:338-357 | a reported id is kept; one that cannot be read fails nothing |
| StepHandlers.StepHandlers.ResetStepForRetry | src/orchestrator/orchestration/steps.py:359-363 | an engine retry forgets the engine run, its failure and its output; nothing else changes |
| StepHandlers.StepHandlers.FinalizeResourceStep | src/orchestrator/orchestration/steps.py:383-407 | no resource or a finalized one is done at once |
| StepHandlers.StepHandlers.FinalizeChange | src/orchestrator/orchestration/steps.py:394-407 | the outcome is written and a moved record followed |
| StepHandlers.StepHandlers.FinalizeDelete | src/orchestrator/orchestration/steps.py:409-426 | mark, then delete; only a record that is gone excuses the mark |
| StepHandlers.StepHandlers.FinalFields | src/orchestrator/orchestration/steps.py:428-451 | the fields built up step by step are the machine's |
| StepHandlers.StepHandlers.CloseTicketStep | src/orchestrator/orchestration/steps.py:509-523 | a closed ticket is not closed again |
| StepHandlers.StepHandlers.SubmitLegacyStep | src/orchestrator/orchestration/steps.py:477-500 | the request is handed over under the step's key, and marked once it was accepted |
| StepHandlers.ReactForgetsCalls | src/orchestrator/orchestration/executor.py:101-151 | what the executor makes of a handler depends on its state and its ending only |
| Escalator.FailureEscalator.Escalate | src/orchestrator/orchestration/escalator.py:91-99 | the ticket side, then the resource side, whatever failed; the drive is left about to save |
| Escalator.FailureEscalator.Reject | src/orchestrator/orchestration/escalator.py:101-104 | only the resource is let go |
| Escalator.FailureEscalator.ReleaseResource | src/orchestrator/orchestration/escalator.py:106-158 | one call for a resource configured and not finalized, none otherwise; its failure is swallowed |
| Escalator.FailureEscalator.LogDocumentationIncident | src/orchestrator/orchestration/escalator.py:206-237 | opened and closed at once, for another team's failure only, its failures swallowed |
| Escalator.FailureEscalator.EscalateUnclassified | src/orchestrator/orchestration/escalator.py:239-266 | incident to the default team, note on the ticket, ticket left open |
| Escalation.EscalationIsolatesFaults | src/orchestrator/orchestration/escalator.py:91-237 | for every pattern of failing calls: the resource is let go exactly when configured and not finalized; a classified failure's ticket is closed exactly when it exists, the main incident was opened and the close succeeded; the incident is asked of the team the engine's failure names if it names one, else of the default team, and the run names that incident; nothing else of it changes |
| Escalation.EscalationWritesDown | src/orchestrator/orchestration/escalator.py:206-266 | for every pattern of failing calls: the record for the default team is closed as documentation, and after an unclassified failure the run's own ticket is told of the incident that was opened; nothing else is written on a ticket or incident |
| Verdicts.FailedEngineRunEnds | src/orchestrator/orchestration/steps.py:310-336 | a poll says FAILED: up to the save, whatever is answered, the run is retried exactly when the kind reported (or the last one known, or TASK) is TASK and a retry is left; otherwise it is FAILED with that kind on record, and an incident is asked for exactly when it is TASK, of the team the failure names if it names one |
| Verdicts.DeniedEndsRejected | src/orchestrator/orchestration/executor.py:237-245 | a denied approval: whatever is answered up to the save, the run is REJECTED, nothing is scheduled, the denial is on record, no incident is asked for, the ticket is left alone and the resource let go |
| Verdicts.RefusedEndsFailed | src/orchestrator/orchestration/steps.py:246-280 | a refused validation ends the run FAILED at once as a precheck failure, pages nobody and closes the requester's ticket as unsuccessful |
| Verdicts.RaisedEnds | src/orchestrator/orchestration/executor.py:121-197 | any other handler call that raises is a counted failure: retried while the budget lasts, then FAILED with an incident of the default team; the three calls that may raise are named |
| Verdicts.PendingPollsAgain | src/orchestrator/orchestration/steps.py:198-221 | a pending approval changes nothing but the due time, thirty seconds on |
| Verdicts.EnginePollsAgain | src/orchestrator/orchestration/steps.py:91-93 | an engine run under way is looked at again fifteen seconds on |
| Verdicts.TriggeredPollsLater | src/orchestrator/orchestration/steps.py:287-309 | so is one just triggered, whose id the run holds from then on |
| Verdicts.BudgetInSeconds | src/orchestrator/orchestration/executor.py:105-119 | an attempt's handler is entered exactly while a week for an approval, an hour for anything else, has not been exceeded |
| Verdicts.FailedSaveEnds | src/orchestrator/orchestration/executor.py:199-235 | a save that fails before the run had failed leads to FAILED, an unclassified error at its step, an incident of the default team, and one quiet save |
| Verdicts.TakenStepCallsNobody | src/orchestrator/orchestration/steps.py:104-523 | a step whose marker is set is left without a call, and nothing of the run changes but that step's bookkeeping |
| Verdicts.AnswersAreKept | src/orchestrator/orchestration/steps.py:108-192 | the ids a provider gives a run are kept on it: ticket, record, runner's reference, engine output |
| Verdicts.FinalizedWhereReported | src/orchestrator/orchestration/steps.py:394-451 | a finalized record is at the id the engine reported, if that is not empty, else where it was; it is moved exactly when these differ |
| Denials.RejectedMeansDenied | src/orchestrator/orchestration/executor.py:237-245 | over every history: a REJECTED row has a denial of its own ticket on the log, and of the commits made by a drive's first save exactly those of drives that heard a denial are REJECTED |
| Denials.CommitsRejectedExactlyWhenDenied | src/orchestrator/orchestration/steps.py:219-221 | one drive commits REJECTED with its first save exactly when it heard a denial |
| Requests.EveryCallAsksForTheRequest | src/orchestrator/orchestration/steps.py:76-523 | over every history each call carries the request's own template, parameters, operation, key and place; a CREATE's record is made PROVISIONING, an UPDATE marks its record UPDATING and a DELETE marks it DELETING; a ticket or incident that is closed or noted on was given to the run before |
| Escalation.RejectionOnlyLetsGo | src/orchestrator/orchestration/escalator.py:101-104 | a rejection opens no incident, leaves the ticket alone and lets go of the same resource |
| Escalation.FailureCosts | src/orchestrator/orchestration/failure_policy.py:26-45 | refused requests end at once and page nobody; everything else is retried while the budget lasts, then paged |
| Totality.RankFalls | src/orchestrator/orchestration/executor.py:73-151 | every call of every drive, whatever its answer, brings it nearer its end |
| Totality.HandleIsTotal | src/orchestrator/orchestration/executor.py:48-71 | from any step, in its plan or outside it, any answers lead to the end within 58 calls and with at most one escalation, and what is saved is scheduled exactly when it is not over |
| Totality.FinishedOnlySaves | src/orchestrator/orchestration/executor.py:252-270 | a drive ends at a save and nowhere else |
| Totality.SavesMoveTheVersion | src/orchestrator/orchestration/executor.py:224-270 | exactly a save that went through moves the copy's version, by one; a save ends its drive exactly when it went through, was stale, or is the crash path's |
| Totality.TraceKept | src/orchestrator/orchestration/executor.py:73-270 | no drive changes what the trigger fixed, its version before a save, or a start time it has logged |
| Histories.CommitsFormOneChain | src/orchestrator/adapters/database.py:63-80 | over every interleaving the commits form one chain: each computed by one drive that loaded the commit before it, versions rising by exactly one; no drive commits twice or escalates twice |
| Histories.HistoriesAreSerial | src/orchestrator/orchestration/executor.py:48-71 | every history of overlapping, dying and woken drives commits what drives one after the other commit |
| Histories.CommitsFromCurrentRow | src/orchestrator/adapters/database.py:66-72 | a save is applied only by a drive that has not committed and whose base is the stored row |
| Histories.TerminalRowStays | src/orchestrator/adapters/database.py:104-123 | no claim, wake or save changes a finished row |
| Histories.FinishedRunsStayFinished | src/orchestrator/adapters/database.py:74-123 | status is terminal exactly when nothing is scheduled, and a finished row stays as it is for good |
| Bookkeeping.ResumeKeeps | src/orchestrator/orchestration/executor.py:86-151 | every call, whatever its answer, keeps the log of started steps a prefix of the plan in order of time, the attempt counters within budget, at most one error, and the markers of exactly the steps done |
| Bookkeeping.FirstMoveKeeps | src/orchestrator/orchestration/steps.py:104-523 | no assertion of a handler fires when the books are in order |
| Bookkeeping.SavedRowKeeps | src/orchestrator/adapters/database.py:74-79 | what a drive saves is a row with its books in order |
| Bookkeeping.RowIgnoresSchedule | src/orchestrator/adapters/database.py:82-123 | claims and wakes do not touch the books |
| Safety.HistoriesAreSafe | src/orchestrator/orchestration/executor.py:48-270 | bookkeeping, evidence and keys hold in every reachable state of every history |
| Safety.BooksAreInOrder | src/orchestrator/orchestration/executor.py:86-151 | every reachable row of a triggered run has its books in order, and no move rewrites a start time |
| Safety.RowsReadClearly | src/orchestrator/api.py:182-216 | a row has at most one error, and none while it runs, so which came last is never in question |
| Safety.AssertsNeverFire | src/orchestrator/orchestration/steps.py:104-523 | in no drive of any history of a triggered run does a handler's assertion fire |
| Safety.EveryCallIsJustified | src/orchestrator/orchestration/plans.py:24-47 | over all histories: no engine for a resource run without an earlier approval and a later eligible validation; no successful close, no deletion mark, no update's state, no CREATE's READY and no re-key before a poll answered success; every write's flag tells its state |
| Safety.EveryDriveIsCleared | src/orchestrator/orchestration/executor.py:86-151 | the same for each drive's next call: its own ticket was approved, the engine run it holds succeeded |
| Safety.CompletedMeansSuccess | src/orchestrator/orchestration/plans.py:24-47 | a completed run with an engine step was told that the engine run it holds succeeded |
| Safety.EngineRunsAreBounded | src/orchestrator/orchestration/steps.py:59-63 | over all histories at most max_retries + 1 engine keys are ever presented |
| Gates.ResumeGate | src/orchestrator/orchestration/steps.py:195-336 | every call keeps the evidence that the steps done so far needed |
| Gates.GateOfCall | src/orchestrator/orchestration/steps.py:366-523 | no drive makes a call it has no clearance for |
| Provenance.EveryDriveActsOnItsOwnEngineRun | src/orchestrator/orchestration/steps.py:310-363 | over all histories: the engine run a drive polls was triggered under its current attempt's key, a record is moved only to an id that engine run reported, and a team other than the default is paged only if that engine run's failure named it |
| Provenance.RetrySourced | src/orchestrator/orchestration/steps.py:359-363 | a retried engine step starts with nothing of the failed attempt |
| Provenance.ResumeSourced | src/orchestrator/orchestration/steps.py:287-357 | every call, whatever its answer, keeps what the run knows of its engine traceable to the engine run it holds |
| Termination.RunsEnd | src/orchestrator/orchestration/executor.py:101-151 | without wakes, crashes and failed saves a triggered run is over after at most the sum over its plan of (max_retries + 1) * (floor(budget / interval) + 2) calls of `handle` |
| Termination.TurnSpends | src/orchestrator/orchestration/executor.py:101-173 | every call leaves the run over or strictly fewer calls to come: steps, then retries, then polls |
| Termination.PollSpendsACall | src/orchestrator/orchestration/steps.py:92-93 | a poll within the budget uses up one of the polls that fit in it |
| Termination.BoundInNumbers | src/orchestrator/orchestration/steps.py:203-205 | the bound for three retries |
| Records.FinishedRunMatchesRecord | src/orchestrator/orchestration/escalator.py:106-158 | a terminal resource run leaves no record in flight: COMPLETED leaves it READY where the engine put it, or gone for a DELETE; FAILED or REJECTED leaves nothing for a CREATE and READY otherwise, unless it was finalized; every other record is as it was |
| Records.TurnRecord | src/orchestrator/orchestration/executor.py:73-151 | one drive takes a record that matches its run to one that matches what it saved |
| Records.ConfigureRecord | src/orchestrator/orchestration/steps.py:142-192 | configuring puts exactly the run's record to work |
| Records.FinalizeRecord | src/orchestrator/orchestration/steps.py:383-407 | finalizing leaves the record fulfilled where it was moved to |
| Records.DeleteRecordSteps | src/orchestrator/orchestration/steps.py:409-426 | marked, then gone |
| Records.ReleaseRecord | src/orchestrator/orchestration/escalator.py:106-158 | releasing lets the record go |
| CrashEquivalence.KillsDoNotShow | src/orchestrator/orchestration/steps.py:104-192 | for CREATE, UPDATE and DELETE: whatever drives are killed and wherever, the world stands at a stage of the uninterrupted run, the run never fails, and once over it is COMPLETED in the uninterrupted run's world |
| CrashEquivalence.TwoDrivesSuffice | src/orchestrator/orchestration/steps.py:287-336 | after any kills there are two drives that complete the run and reach that world |
| CrashEquivalence.EffectOnce | src/orchestrator/orchestration/steps.py:366-451 | every provider call of a re-drive makes its effect if it was not made yet and changes nothing if it was |
| Retries.RetryIsDueAfterBackoff | src/orchestrator/orchestration/executor.py:156-173 | the k-th retry is saved due base * 2^(k-1) plus its draw after the clock's reading, with k attempts counted |
| Retries.TotalWait | src/orchestrator/orchestration/executor.py:168-172 | k retries wait base * (2^k - 1) plus their draws, which add up to between k and 5k |
| Retries.WaitsGrow | src/orchestrator/orchestration/executor.py:168-172 | every wait is longer than the one before, however the draws fall, exactly when the base is more than four seconds |
| RunStores.RunStore.Save | src/orchestrator/adapters/database.py:63-80 | compare-and-swap on the version: what it answers and what it writes, database errors before and after the commit included |
| RunStores.RunStore.ClaimDue | src/orchestrator/adapters/database.py:82-102 | claims the oldest due rows nobody has locked, each once, up to the limit, oldest first; exactly those are due again one lease from now, every other row stays as it is, and a row left out was locked, not due, or over the limit |
| RunStores.RunStore.PickDue | src/orchestrator/adapters/database.py:86-97 | the loop picks due, unlocked rows only, each once, oldest first, and leaves one out only when the limit is reached and all picked are due no later |
| RunStores.RunStore.Oldest | src/orchestrator/adapters/database.py:92-93 | the row due first among the candidates |
| RunStores.RunStore.Wake | src/orchestrator/adapters/database.py:104-123 | makes a run that is not over due now, leaves any other alone, and says which it was |
| RunStores.RunStore.Create | src/orchestrator/adapters/database.py:49-54 | adds the row |
| RunStores.RunStore.Get | src/orchestrator/adapters/database.py:56-61 | the row under its own id, or nothing |
| Queue.NobodyStarves | src/orchestrator/adapters/database.py:82-102 | a run past its time is claimed after at most as many other claims as rows were due no later than it |
| Queue.ClaimedInTime | src/orchestrator/adapters/database.py:82-102 | at most that many claim calls pass it by |
| Queue.ClaimTakesFromAhead | src/orchestrator/adapters/database.py:86-97 | a call that passes a due run by takes at least one row, all of them due no later |
| Queue.ClaimsAreALeaseApart | src/orchestrator/adapters/database.py:97-101 | two claims of a run with no save or wake between them are at least a lease apart; one call returns distinct ids |
| Leases.DrivesDoNotOverlap | src/orchestrator/adapters/database.py:82-102 | without wakes and failed saves, drives that save or die within their lease never overlap |
| Leases.SaveIsTheLastCall | src/orchestrator/orchestration/executor.py:252-270 | a save that does not fail ends its drive |
| Services.WorkflowRunService.TriggerLegacy | src/orchestrator/services.py:139-189 | a legacy request becomes a legacy run carrying it, its retry budget and its flow type, due now, with nothing done, no resource and no ticket |
| Services.RunCallbackService.WakeAll | src/orchestrator/services.py:232-237 | exactly the waiting runs among those named are due now, and they are counted |
| Airflow.AirflowClient.GetOutput | src/orchestrator/adapters/airflow.py:188-206 | the loop gives the first output in task order |
| Airflow.FirstOutputIsFirst | src/orchestrator/adapters/airflow.py:188-206 | a value is given exactly when only silent tasks come before it, nothing exactly when all are silent, an error exactly when an unreadable entry comes first |
| Airflow.AirflowClient.QueryRunStatus | src/orchestrator/adapters/airflow.py:118-134 | the status is the one `HasStatus` describes by the run's state and its first telling verdict, and no other: FAILED for a failed run or a successful one whose verdict reads true, IN_PROGRESS for any other readable state, raised exactly when something needed cannot be read |
| Airflow.SuccessMeansNoRollback | src/orchestrator/adapters/airflow.py:118-134 | success is answered exactly for a run in state success whose verdict is missing or does not read true; never for one rolled back |
| Airflow.OneStatus | src/orchestrator/adapters/airflow.py:118-134 | each of the four answers is given exactly in its case, the four cases written out |
| Airflow.TruthyReadsTrue | src/orchestrator/adapters/airflow.py:29-134 | the same with the three words and the blanks spelled out character by character |
| Airflow.TruthyIsPaddedYes | src/orchestrator/adapters/airflow.py:29-134 | a verdict reads true exactly when it is true, 1 or yes in any case with blanks around it |
| Airflow.RolledBackNeverCountsAsDone | src/orchestrator/adapters/airflow.py:118-134 | if every engine run is rolled back, no history goes past RUN_ENGINE, completes, finalizes the record or closes the ticket as successful |
| ServiceNow.ServiceNowTicketClient.OpenTicket | src/orchestrator/adapters/servicenow.py:145-189 | a call orders at most once, only when no item carries its key, and returns the tagged item if there is one |
| ServiceNow.ServiceNowTicketClient.FindRitm | src/orchestrator/adapters/servicenow.py:89-100 | an item tagged with the key, or none if there is none |
| ServiceNow.ServiceNowTicketClient.GroupSysId | src/orchestrator/adapters/servicenow.py:66-83 | a known name costs no lookup, a miss is not remembered |
| ServiceNow.OrdersCounted | src/orchestrator/adapters/servicenow.py:145-189 | over any calls, wherever they die, the orders are exactly those whose tag did not take effect plus the one that tagged |
| ServiceNow.OrdersAreBounded | src/orchestrator/adapters/servicenow.py:145-189 | at most one order more than those whose tag did not take effect |
| ServiceNow.TaggedIsFound | src/orchestrator/adapters/servicenow.py:145-189 | once an item is tagged nothing is ordered, and every call that returns gives a tagged item |
| ServiceNow.OneTicketPerKey | src/orchestrator/adapters/servicenow.py:145-189 | at most one item ever carries a key |
| BatchLookup.RunQueries.ParseResourceIds | src/orchestrator/api.py:224-246 | the loop gives the distinct non-blank ids, or the refusal |
| BatchLookup.IdsInOrderAsked | src/orchestrator/api.py:224-246 | every id asked for once, no other, in the order first asked |
| BatchLookup.ParseRoundTrips | src/orchestrator/api.py:224-246 | exactly the clean lists within bounds come back from their comma-join, and every parsed list is one; a request is refused as empty exactly when nothing but blanks is asked for, and a clean list as too long exactly above 200 ids |
| BatchLookup.RunQueries.FindLastByResourceId | src/orchestrator/adapters/database.py:146-163 | the newest run of the record, or none if it has none |
| BatchLookup.RunQueries.FindLastByResourceIds | src/orchestrator/adapters/database.py:165-185 | for each record with runs, its newest |
| BatchLookup.RunQueries.GetLatestResourceRuns | src/orchestrator/api.py:550-570 | in the order asked, the single lookups' answers with misses dropped |
| BatchLookup.NothingLost | src/orchestrator/api.py:556-570 | a run is answered exactly when it is the latest of an id asked for |
| Counterexamples.FinalizingRepeatsUnlessMoved | src/orchestrator/orchestration/steps.py:394-407 | repeating a finalizing write is harmless exactly when it does not move the record; otherwise the repeat fails the step |
| Escalator.FailureEscalator.EscalateByPolicy | src/orchestrator/orchestration/escalator.py:160-204 | incident where the policy asks, then the ticket, if the incident was opened |
| Escalator.FailureEscalator.OpenMainIncident | src/orchestrator/orchestration/escalator.py:171-196 | the responsible team's incident, its id kept, and the default team's record of it |
| Worker.RunWorker.Run | src/orchestrator/worker.py:42-81 | exactly the claimed runs are loaded, once each and in order, each driven to its end before the next; neither a failed claim nor a drive that raises ends the loop |
| Services.WorkflowRunService.Trigger | src/orchestrator/services.py:53-137 | which orders are refused and why; a refused order stores nothing; a stored run carries what its type needs and no legacy request |
| Services.NewRunIsTriggered | src/orchestrator/services.py:99-129 | a new run meets what the safety properties start from exactly when it carries what its type needs |
| LegacyTrigger.AssertsFireExactlyForLegacy | src/orchestrator/services.py:99-129 | of the runs the trigger stores, exactly those of a workflow registered as LEGACY have a history in which a handler's assertion fires |
| LegacyTrigger.LegacyByTriggerFails | src/orchestrator/orchestration/steps.py:477-482 | every history that ends such a run ends it FAILED |
| Incidents.OneIncidentPerDrive | src/orchestrator/orchestration/escalator.py:160-237 | a drive asks for at most one incident, and perhaps the default team's record of it, whatever it hears |
| Incidents.OneIncidentPerRun | src/orchestrator/orchestration/executor.py:184-222 | over histories in which drives do not overlap, do not die once they have asked for an incident and do not fail to save: one incident per run, stored FAILED once no drive is under way; none for a COMPLETED or REJECTED run |
| Incidents.UnfailedRunsPageWhenAFailureIsLost | src/orchestrator/orchestration/executor.py:199-222 | over every history: a run stored COMPLETED or REJECTED asked for an incident exactly when one of its drives asked for one and no save of its failure went through |
| Incidents.HowFailuresAreLost | src/orchestrator/orchestration/executor.py:224-270 | such a drive is not over, or its last save was stale or failed without a commit |
| PagingAgain.AnyUnfinishedRunCanPage | src/orchestrator/orchestration/executor.py:153-197 | from any reachable state in which the run is not over, answers alone lead to one more incident; and if nobody drives the run, with no failed save, overlap or death |
| PagingAgain.KilledOncePagedPagesAgain | src/orchestrator/orchestration/executor.py:184-222 | for every run type and history: a drive killed after it paged, the run not stored as over, allows another incident |
| EngineRuns.EngineRunsOverlapExactlyWhen | src/orchestrator/orchestration/steps.py:310-363 | over a whole attempt at RUN_ENGINE: its engine run is started, never polled FAILED and followed by another exactly when it was started, the last drive failed it without such a poll (deadline, trigger or poll that raised) and a retry was left; the next has another key |
| EngineRuns.AttemptEndsUnpolled | src/orchestrator/orchestration/executor.py:105-182 | the same for one drive, and a poll that says FAILED ends the attempt |
| EngineRuns.RaisedTriggerLeavesTwo | src/orchestrator/orchestration/steps.py:290-309 | a history with two engine runs going: a trigger that raised had taken effect |
| EngineRuns.DeadlineLeavesTwo | src/orchestrator/orchestration/executor.py:105-129 | a history with two engine runs going: the first outlasted the step's budget, unpolled |
| LeftInFlight.LastWriteDecides | src/orchestrator/orchestration/steps.py:142-192 | after any events a record is in flight exactly when the last that took effect on it was a configure write |
| LeftInFlight.OnlyConfiguringLeavesInFlight | src/orchestrator/orchestration/steps.py:76-88 | no other call of a drive writes a state a run is still working in |
| LeftInFlight.UnconfirmedRunLeavesInFlight | src/orchestrator/orchestration/escalator.py:150-158 | over every history and for all operations: while no drive is told that its configure write went through, nothing else is written, nothing is released, and the record is in flight exactly when some configure write took effect |
| LeftInFlight.UnconfiguredRunLeavesInFlight | src/orchestrator/orchestration/escalator.py:150-158 | with drives one after the other, a run that ends unconfigured leaves its record in flight exactly when some configure write took effect |
| LeftInFlight.LateWriteHistory | src/orchestrator/orchestration/steps.py:181-192 | an overlapping drive's write that lands after the run ended leaves the record in flight for good |
| DrivesInTurn.DisciplinedDrivesTakeTurns | src/orchestrator/adapters/database.py:63-102 | in the interleaved system with claims and leases, without wakes, failed saves and deaths, the commits are turns: each by one drive of the row the one before it saved, once that was due |
| DrivesInTurn.DisciplinedRunsEnd | src/orchestrator/orchestration/executor.py:101-151 | so that system ends every triggered run within the plan's budget of commits |
| DrivesInTurn.DisciplinedRunMatchesRecord | src/orchestrator/orchestration/escalator.py:106-158 | and leaves its record as the end of the run says, every other as it was |
| Counterexamples.PollKeepsEngineRun | src/orchestrator/orchestration/steps.py:310-363 | one poll: it keeps the engine run exactly when it does not raise into a retry |
| Counterexamples.FailedSaveEscalates | src/orchestrator/orchestration/executor.py:199-222 | one save: an incident follows exactly when it failed and the drive had not failed the run |
| Counterexamples.ConfigureFailsUnreleased | src/orchestrator/orchestration/escalator.py:150-158 | after a last configure attempt that raised nothing is released, whatever the operation |
| Counterexamples.WakeDefeatsLease | src/orchestrator/adapters/database.py:104-123 | a wake between two claims puts two drives of one run under way |
| Counterexamples.FailedSaveDefeatsLease | src/orchestrator/orchestration/executor.py:199-222 | a save that failed after its commit puts a second drive under way within the first one's lease, with no wake |
| Counterexamples.KilledDriveRepeats | src/orchestrator/orchestration/executor.py:48-71 | a drive killed before its save leaves nothing behind in the store, so all it asked is asked again |
| Counterexamples.OverlappingDrivesRepeat | src/orchestrator/orchestration/executor.py:48-71 | two overlapping drives ask for the same things twice |
| Counterexamples.TwoIncidentsForOneRun | src/orchestrator/orchestration/escalator.py:239-266 | a history of a legacy run with two incidents |
| Counterexamples.DeathPagesACompletedRun | src/orchestrator/orchestration/executor.py:184-197 | a COMPLETED run with an incident, by a death alone |
| Counterexamples.OverlapPagesACompletedRun | src/orchestrator/orchestration/executor.py:184-197 | a COMPLETED run with an incident, by an overlap alone |
| Counterexamples.MovedThenNotFound | src/orchestrator/orchestration/steps.py:394-407 | from any state in which a CREATE waits for its engine run: the record is moved, the drive killed, and the next drive's finalizing write truthfully told that nothing is there |

## Left out

- HTTP, tokens and their refresh, TLS, connection pools: a provider call is one abstract call with its outcomes.
- SQL, JSONB, sessions, migrations: each store operation is one atomic step on rows; rows another transaction has locked are a parameter of `ClaimDue`.
- A run whose `current_step` is not a step name at all: steps are a datatype here. In the source such a run raises in `_drive` and again in `_crash` and escapes `handle`.
- Fetching the detail of an engine failure (`get_failure`, `_first_failed_task`): in the machine the engine may report any failed task, group and kind, so nothing proved depends on how the adapter finds them.
- Texts of incidents, notes and errors, names, regions and tags of resources, free-form payloads: carried or dropped, never looked into.
- The second reading of the clock for the log line before the budget check, and all logging.
- Configuration, command line, API routes and response models other than the batch lookup, workflow registration.
- Cancellation and signals: a process that dies is a drive that makes no more calls.
- Worker.RunWorker.Run: the claims are a given list of answers and the stop request a position in it, so waiting and wall-clock time are not modelled; the pool is any number of such loops.
- OutsidePorts.Ports.Ask: answers anything a call can get, so no assumption about a provider is hidden in it; what a provider does to its own data is in `Providers.dfy` and used only by `Records.dfy`, `CrashEquivalence.dfy` and `Counterexamples.dfy`.
- Leases.DrivesDoNotOverlap: one direction only; that a wake alone, or a failed save alone, breaks it is `Counterexamples.WakeDefeatsLease` and `Counterexamples.FailedSaveDefeatsLease`.
- EngineRuns.EngineRunsOverlapExactlyWhen: drives one after the other; overlapping drives present the key of the row they loaded, of which `Safety.EngineRunsAreBounded` bounds the number.
- Records.FinishedRunMatchesRecord: other runs do not write to the same record meanwhile.
