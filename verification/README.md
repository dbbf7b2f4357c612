# RAEF in Dafny

RAEF makes the tool calls of an agent survive crashes. A call is written to a durable log before it is sent; after a crash a
coordinator waits, asks the target what happened, and marks the call as committed, lets it be replayed, or hands it off. This
project models that protocol and proves what it guarantees; `dafny verify dfyconfig.toml` covers the whole of it.

The parts, from the bottom up:

- **Values and texts.** `Json` (values and the canonical printer), `Text`, `Identity` (the deterministic execution id),
  `PlanText` (the numbered plan text) and `PlanSections` (its other sections), `Timeouts` (call timeouts inside a request).
- **Durable state.** `Models`, `Planner`, `Context` and `Facade`: the store is one value (log, checkpoints, plans, contexts,
  records) and every facade operation is a function from a store to the next store or an error. `LoggingService.dfy` holds the
  facade as a class that changes its fields step by step and rolls back; each method is proved against its function.
- **Laws of the log.** `Rebuild`, `Agreement`, `Statuses`, `Effects`, `History`, `Snapshots`, `Audit`: what the log says about the
  projections, after any history of operations. `Progress` says exactly when an operation is accepted.
- **What was handed in is what is kept.** `NewPlans` (the items of a started run), `RunChanges` (turns, intents, advances, messages,
  checkpoints, log entries), `CallRecords` (every field of a recorded result, and of a call's answer), `TargetStates` (what a
  committed request leaves in the target). These laws speak of inputs and outputs only, not of the functions in between.
- **The remote side.** `Target` (the mock service, as functions and as a class) and `TargetVerifier`.
- **Executing and recovering.** `Executor`, `Adapter`, `TransactionManager.dfy`, `Recovery`, `Coordinator`; `PassResults` says what a
  pass makes of each candidate, answers for it and adds to the history, `Handoffs` which callbacks it makes.
- **The system.** `Machine` is the whole system as a state machine: any number of processes, a crash between any two durable steps,
  late and repeated deliveries, other clients of the target. `SingleRunner` and `RunnerLaws` hold what one process per run adds,
  `Replays` and `RepeatedReplay` when a replay is verified, `PendingLists` what the pending lists hold, `TwoRunners` why one runner is
  needed, `Abandonment` which logged intents are lost, and `MachineHistory` brings the laws of the log to every reachable state.
  `LastingAnswers` follows an answer from the target to every later call of the same id. `Openings` is how a history begins.
- **The sample agent.** `Driver` is the crash-and-restart step loop, `StepLoop` the same as a class. `DriverFrames` and `DriverLaws`
  prove that a completed loop has committed every write exactly once, `DriverProgress` that it completes, `LostRequest` and `LostRuns`
  exactly when it survives a lost request (`DriverItems`: what its turns finish; `Faultless`: a fault that never struck),
  `VisibleWrites` what a completed run leaves to be seen.
  `DriverHistory` proves that a run of the loop is a history of `Machine`, and so carries the laws of the system over to it.
- **Transactions.** `Transaction` (nested scopes) and `FacadeScopes` (every facade operation as the nested scopes it is made of).
- **Beside it.** `Payloads` (offloading large payloads), `Monitor` (the pulse monitor).

What is assumed is always a parameter: clock readings, fresh uuids, the digest (with "no collision among these" as an explicit
hypothesis), float parsing and float addition, the answers of external calls and of the verifier.

## What the proofs found

- Execution ids need less than one would think: only the run, the plan item and the tool must be free of `|`. The invocation key may
  be any string, because the printed arguments always end in a JSON object that cannot be re-split (`Identity.RawIdentifies`).
- Pending lists are exact only under a single runner. From an empty store and without a reset, two runners reach a state with an
  open execution that is not pending, after invoking a write twice that nobody proved absent (`TwoRunners.LawsNeedOneRunner`);
  the audit still finds nothing (`MachineHistory.EveryStateAudited`). A reset empties the list and keeps the records, so it keeps the
  list exact if and only if the run has no open execution (`PendingLists.ResetKeepsExactIff`); a reachable reset does lose one
  (`PendingLists.ResetLosesPending`). What holds in all single-runner histories is that the list holds the open executions logged
  since the last reset (`PendingLists.PendingSinceReset`).
- A crash between intent and dispatch loses a call for good, although the recovery strategy answers "replay": such a crash can
  happen (`Abandonment.CrashLosesCall`), nobody ever invokes the call afterwards (`RunnerLaws.AbandonedForever`), and it is exactly
  these logged intents that are lost (`Abandonment.AbandonedIff`). At most once, not exactly once.
- The comment on ambiguous replays in `src/raef/txn_manager.py:211-213` promises that the next recovery pass verifies again. It does
  not: after a second ambiguous answer a full pass finds nothing to do and the call is sent a third time
  (`RepeatedReplay.SecondReplayUnverified`). Between two invocations of a call in a row absence was verified if and only if the first of
  them was not itself a replay (`Replays.VerifiedBetweenIff`), and once absence is recorded no continuation ever verifies it again
  (`Replays.NeverVerifiedAgain`). At most one commit therefore rests on the target (`Machine.AtMostOneCommit`).
- The verifier's fallback on the visible state can report a commit that never happened (`TargetVerifier.FallbackMisleads`). For a lost
  request of the sample agent this is one of exactly three reasons not to be committed (`LostRequest.LostTurnCommitsIff`), also over any
  number of crashes (`LostRuns.LostRunsCommitIff`).
- An inner transaction scope that raises is not undone when the exception is caught before the outermost scope
  (`Transaction.CaughtInnerScopeKept`). A facade operation is atomic because its scope is the outermost one
  (`FacadeScopes.OperationIsAtomic`); inside a caller's transaction a refused message leaves its event in the log
  (`FacadeScopes.NestedRefusalKeepsEvent`).

## Model

| member | source | states |
|---|---|---|
| Identity.RawIdentifies | src/raef/txn_manager.py:103-108 | for all calls: equal pre-hash strings exactly when the joined ids and key are equal and the arguments are equal as JSON values, key order ignored |
| Identity.CleanCallsIdentified | src/raef/txn_manager.py:91-110 | with separator-free run, item and tool the pre-hash string identifies the whole call |
| Identity.IdIdentifiesCall | src/raef/txn_manager.py:109-110 | under a collision-free digest two such calls share an execution id only if they are the same call |
| Identity.SeparatorInIdsCollides | src/raef/txn_manager.py:104-108 | two families of different calls with the same pre-hash string when a separator occurs in an id |
| Json.PrintInjective | src/raef/txn_manager.py:103 | the canonical printer is injective on all JSON values |
| Json.NoDocumentAfterBar | src/raef/txn_manager.py:103-108 | no printed object can be re-read as text, a separator and another printed object |
| Json.DigitsAreDecimal | src/raef/txn_manager.py:103 | printed naturals are decimal numerals without leading zeros |
| Text.StripIs | src/raef/utils.py:26-34 | stripping takes away only white space, and only at the ends |
| Timeouts.TimeoutFound | src/raef/recovery/common.py:75-107 | a call timeout is found exactly when a positive one is reachable through the nested option objects, and it is positive |
| Timeouts.TimeoutPrecedence | src/raef/recovery/common.py:81-99 | own fields before nested ones, seconds before milliseconds before the generic field, each in its unit |
| Timeouts.WaitIs | src/raef/recovery/common.py:110-120 | a call waits for its own timeout if one is reachable, otherwise for the window of the coordinator |
| Timeouts.OwnTimeout | src/raef/recovery/common.py:81-99 | the six fields that are read, by name, and when each holds a timeout |
| Timeouts.NestedNames | src/raef/recovery/common.py:101-105 | the four nested objects that are searched, by name |
| PlanText.ParsePlanText | src/raef/planner_state.py:465-531 | the parser loop over numbered plan text computes its specification: titles in order, or the error |
| PlanText.PrintedPlanIsRead | src/raef/tools/mock_agent.py:373-377 | what the plan printer writes is split into its titles again |
| PlanText.PlanRoundTrip | src/raef/tools/mock_agent.py:373-377 | parsing the printed plan gives back titles, order and ids, exactly when no title starts like a bullet |
| PlanSections.SectionsRoundTrip | src/raef/planner_state.py:465-531 | a text with goal, steps, constraints and verification is read back whole, each part in its own place, but for titles that start like a bullet |
| Planner.NextRunnableItem | src/raef/planner_state.py:426-437 | the scheduler's loops compute the first runnable item in sequence order |
| Planner.NextRunnableLeast | src/raef/planner_state.py:426-437 | the answer is runnable and of least sequence index; no answer means no item is runnable |
| Planner.NoneMeansAllDone | src/raef/planner_state.py:426-437 | in an acyclic plan of pending and done items the scheduler gives up exactly when all are done |
| Planner.CompleteNext | src/raef/planner_state.py:362-392 | marking the answer done succeeds, keeps the plan workable and completes just that item |
| Planner.CompletionMovesOn | src/raef/planner_state.py:386-390 | completing the active item moves the cursor to a runnable item of least index, and leaves it only when nothing is runnable |
| Planner.DrainCompletes | src/raef/planner_state.py:426-437 | repeatedly completing the answer ends with everything done, in as many steps as items were pending, dependencies first |
| NewPlans.StatusIsRead | src/raef/planner_state.py:577-583 | a status is read in any case and with any space around it, and nothing else is read as one |
| NewPlans.StartedPlan | src/raef/planner_state.py:255-329 | an accepted new start leaves one item per item handed in and no other, each with its trimmed id or default, title, status, index and exactly its non-blank dependencies in order; the items are ordered by index and id, and the active one is runnable and of least index; proper items in range are never refused |
| Target.MockTargetService.Mutate | src/raef/tools/mock_target.py:547-587 | the in-place change of the free-form state: a setter leaves exactly its value under its key, a deletion removes exactly its key, an increment adds its delta, any other action appends one note; every refusal |
| Target.MockTargetService.ApplyLegacy | src/raef/tools/mock_target.py:190-246 | the whole new document and reply of a non-deduplicated action; a committed one changes the state as its name and payload say |
| Target.MockTargetService.ApplyIdempotent | src/raef/tools/mock_target.py:248-294 | the whole new document and reply of a deduplicated action; a new one changes the state as its name and payload say, a repeated one not at all |
| Target.MockTargetService.ApplyRifl | src/raef/tools/mock_target.py:296-345 | the same for the probeable API |
| Target.MockTargetService.ApplyDistinguishable | src/raef/tools/mock_target.py:365-419 | the same for domain-keyed objects and their history |
| Target.MockTargetService.IncrementCounter | src/raef/tools/mock_target.py:421-455 | the same for counters |
| Target.AppliedChanges | src/raef/tools/mock_target.py:547-587 | what each action name does to the state, key by key, and exactly which requests are refused |
| TargetStates.ActionChanges | src/raef/tools/mock_target.py:190-345 | at every API a committed action changes the state as its name and payload say and answers with its own receipt, and one that does not commit changes nothing |
| TargetStates.ActionCommits | src/raef/tools/mock_target.py:190-345 | it commits exactly when it has a name, is not refused and, at a keyed API, has a new id |
| TargetStates.ActionIsLogged | src/raef/tools/mock_target.py:216-240 | the action log keeps its name, payload and receipt, and only a legacy action counts its attempts |
| TargetStates.ObjectChanges | src/raef/tools/mock_target.py:365-419 | an object holds what was written last under its key, a deleted one remembers only who deleted it; no other object changes |
| TargetStates.ObjectHistoryGrows | src/raef/tools/mock_target.py:392-412 | the history of the key grows by exactly this write |
| TargetStates.CounterChanges | src/raef/tools/mock_target.py:421-455 | when an increment commits, and that the counter then is its old value plus the delta |
| TargetStates.CounterIsSum | src/raef/tools/mock_target.py:421-455 | after any requests, without floats, a counter is its start plus the sum of the deltas that committed |
| Target.ServeStep | src/raef/tools/mock_target.py:190-455 | a request that does not commit changes nothing, ids are never forgotten, a repeat gets the first receipt |
| Target.FirstAcceptableCommits | src/raef/tools/mock_target.py:262-290 | a keyed request commits exactly when its id is new and the state accepts it |
| Target.DedupRefinesNaive | src/raef/tools/mock_target.py:248-345 | any request sequence ends in the state of a memoryless server given only the requests that committed, which never repeat an id |
| Target.MemoryGrows | src/raef/tools/mock_target.py:285-286 | no request sequence forgets an id or changes the entry of its first success |
| Target.NewIdsCommitted | src/raef/tools/mock_target.py:248-345 | every remembered id belongs to a request that committed |
| Target.LateDuplicateInvisible | src/raef/tools/mock_target.py:262-272 | repeating an accepted keyed request at any later time leaves the whole document as without it |
| Target.StatsFromFresh | src/raef/tools/mock_target.py:287-293 | total commits are the sum over the API levels, keyed counters are their map sizes, every counter counts its commits |
| TargetVerifier.VerdictProves | src/raef/verifier.py:46-101 | "absent" proves that no keyed write of the id committed; "committed" proves one did unless the state already matched |
| TargetVerifier.VerdictShows | src/raef/verifier.py:46-101 | a commit found by its id comes with its record and receipt, from the action log first; a guess from the visible state without a receipt, absence with nothing |
| TargetVerifier.VisibleMeans | src/raef/verifier.py:79-93 | what counts as visible: the target holds the value, not null, that the write would set |
| TargetVerifier.FallbackMisleads | src/raef/verifier.py:79-93 | a target that was never called is reported as committed when the value is already there |
| Logging.LoggingService.StartRun | src/raef/logging_service.py:164-249 | the imperative operation reaches the specified store, or rolls back its events and projections; an accepted new start has proper items and leaves the plan that they ask for |
| Logging.LoggingService.RecordContextMessage | src/raef/logging_service.py:251-290 | as above |
| Logging.LoggingService.RecordLlmTurn | src/raef/logging_service.py:292-346 | as above |
| Logging.LoggingService.RecordToolIntent | src/raef/logging_service.py:348-432 | as above, with both deduplication paths |
| Logging.LoggingService.RecordToolDispatch | src/raef/logging_service.py:434-476 | as above |
| Logging.LoggingService.RecordToolResult | src/raef/logging_service.py:478-574 | as above, with the transition check and the conditional clearing of the pending list |
| Logging.LoggingService.AdvancePlanItem | src/raef/logging_service.py:576-605 | as above |
| Logging.LoggingService.SetActivePlanItem | src/raef/logging_service.py:607-627 | as above |
| Logging.LoggingService.WriteRunCheckpoint | src/raef/logging_service.py:629-645 | as above |
| Logging.LoggingService.CheckpointLocked | src/raef/logging_service.py:763-813 | the snapshot with the executions if asked for, the checkpoint pointer and the event of one checkpoint |
| Logging.LoggingService.MaybeAutoCheckpoint | src/raef/logging_service.py:752-761 | a checkpoint exactly when the last sequence number is a multiple of the interval |
| Logging.LoggingService.SyncContextWithPlanner | src/raef/logging_service.py:731-750 | the event and the pointers copied from the plan |
| Logging.LoggingService.Rollback | src/raef/runtime_store.py:210-212 | everything is as it was when the transaction began |
| Effects.StartEffect | src/raef/logging_service.py:180-243 | starting keeps every record; a new or reset run has no pending ids and its seed messages; other runs are untouched |
| Effects.IntentEffect | src/raef/logging_service.py:361-426 | a recorded intent was either known and changed nothing, or made its record and joined the pending list |
| Effects.DispatchEffect | src/raef/logging_service.py:438-474 | when a dispatch is accepted, and that only that record changes |
| Effects.ResultEffect | src/raef/logging_service.py:495-572 | when a result is accepted, and that only that record and its pending entry change |
| Effects.MessageEffect | src/raef/logging_service.py:251-290 | when a message is accepted, and that only the history grows by the trimmed message |
| Effects.TurnEffect | src/raef/logging_service.py:292-346 | a recorded turn adds its trimmed message and touches no record, pending list or other run |
| Effects.PlanOpEffect | src/raef/logging_service.py:576-645 | advancing, activating and checkpointing touch no record, pending list or message |
| CallRecords.ResultMakesRecord | src/raef/logging_service.py:478-574 | exactly when a result is accepted, and every field of the record it leaves: the outcome from the arguments, what they leave out from the record before |
| RunChanges.TurnChangesPlan | src/raef/planner_state.py:395-405 | a recorded turn attaches its trimmed output to its item and changes nothing else in any plan |
| RunChanges.IntentChangesPlan | src/raef/planner_state.py:407-416 | a new intent attaches its id to its item, once |
| RunChanges.IntentMakesRecord | src/raef/logging_service.py:409-424 | a first intent records item, tool, kind and request as given, open and without outcome |
| RunChanges.AdvanceChangesPlan | src/raef/planner_state.py:362-392 | an accepted advance gives its item the status that the word stands for and the trimmed note, and moves the cursor only when the active item is finished |
| RunChanges.AdvanceIsTaken | src/raef/planner_state.py:362-392 | it is refused exactly for an unknown item, a word that is no status or a step that is not allowed |
| RunChanges.MessageIsTaken | src/raef/agent_state.py:51-63 | a message is valid exactly when it says something in one of four roles, and is then kept trimmed |
| RunChanges.MessageChangesContext | src/raef/agent_state.py:360-384 | an accepted message is the last one of the history, trimmed and otherwise as given |
| RunChanges.StartedContext | src/raef/agent_state.py:337-355 | a new or reset run begins with its trimmed messages, its memory, nothing pending and its step at the cursor of the plan |
| RunChanges.PerformKeepsMemory | src/raef/agent_state.py:337-355 | only a start that renews the context changes the memory of a run |
| RunChanges.MemoryLasts | src/raef/agent_state.py:337-355 | after any history the memory of a run is the one it was last started with |
| RunChanges.CheckpointIsWritten | src/raef/logging_service.py:763-813 | a checkpoint holds plan, context, last sequence number, kind and, if asked for, exactly the records of its run; it is refused exactly without a kind |
| RunChanges.NothingToCheckpoint | src/raef/logging_service.py:763-813 | a run without events gets none |
| RunChanges.AutomaticIsWritten | src/raef/logging_service.py:752-761 | on every multiple of the interval, and only there, a checkpoint without executions |
| RunChanges.StartIsLogged | src/raef/logging_service.py:186-236 | a new run is announced with the number of its messages and items, its plan and its context as given |
| RunChanges.IntentIsLogged | src/raef/logging_service.py:371-387 | an intent is logged with everything the call was asked for |
| RunChanges.OutcomeIsLogged | src/raef/logging_service.py:478-541 | a dispatch names the tool of its record, a result says what the record says from then on |
| Rebuild.CheckpointStep | src/raef/logging_service.py:763-813 | a checkpoint taken on a faithful store holds the fold of its run's events up to its sequence number |
| Rebuild.IntentFaithful | src/raef/logging_service.py:348-432 | recording an intent keeps every projection the fold of its log |
| Rebuild.ResultFaithful | src/raef/logging_service.py:478-574 | recording a result keeps every projection the fold of its log |
| Rebuild.StartFaithful | src/raef/logging_service.py:164-249 | starting or resetting a run keeps every projection the fold of its log |
| Rebuild.TurnFaithful | src/raef/logging_service.py:292-346 | the same for a model turn |
| Rebuild.MessageFaithful | src/raef/logging_service.py:251-290 | the same for a message |
| Rebuild.DispatchFaithful | src/raef/logging_service.py:434-476 | the same for a dispatch |
| Rebuild.AdvanceFaithful | src/raef/logging_service.py:576-605 | the same for an advanced item |
| Rebuild.ActiveFaithful | src/raef/logging_service.py:607-627 | the same for a new active item |
| Rebuild.PerformFaithful | src/raef/logging_service.py:164-645 | so does every facade operation |
| Agreement.ActiveAtCursor | src/raef/planner_state.py:386-392 | with default sequence indices the item at the cursor is the active item |
| Agreement.CreatedOk | src/raef/planner_state.py:255-314 | a created plan passes the integrity check and its cursor is on its active item |
| Agreement.UpdateOk | src/raef/planner_state.py:362-392 | so does a plan after a status update that moves the cursor |
| Agreement.SetActiveOk | src/raef/planner_state.py:347-353 | choosing an item makes it active and puts the cursor on it |
| Agreement.PendingKept | src/raef/agent_state.py:429-452 | adding and clearing keep the pending list duplicate-free and its last id current |
| Agreement.StartAgrees | src/raef/logging_service.py:164-249 | plan and context agree after a start or a reset |
| Agreement.IntentAgrees | src/raef/logging_service.py:348-432 | they agree after a recorded intent |
| Agreement.ResultAgrees | src/raef/logging_service.py:478-574 | they agree after a recorded result |
| Agreement.PerformAgrees | src/raef/logging_service.py:731-750 | after every operation context and plan agree: version, step index, message count, last pending id, no duplicates, plan integrity, cursor on the active item |
| Statuses.PerformTraced | src/raef/logging_service.py:829-838 | the statuses of every id read off the log form a path in the transition table and end in the record's status |
| Statuses.IntentTraced | src/raef/logging_service.py:348-432 | an intent starts the path of its id, or leaves it alone |
| Statuses.DispatchTraced | src/raef/logging_service.py:434-476 | a dispatch extends the path legally |
| Statuses.ResultTraced | src/raef/logging_service.py:478-574 | a result extends the path legally |
| History.RebuiltIsCurrent | src/raef/logging_service.py:647-672 | latest checkpoint plus later events fold to the current plan and context, unless the read limit cuts the events |
| History.RebuiltFrom | src/raef/runtime_store.py:731-760 | what is read for rebuilding: the selected checkpoint of the highest sequence number, the youngest among equals, none only if none was written, and the first events after it up to the limit |
| History.LogIsTheTruth | src/raef/logging_service.py:647-672 | after every history of operations from an empty store: rebuilding gives the current state, every checkpoint is what the log said, log statuses are record statuses, plan and context agree |
| History.HistoryGrows | src/raef/logging_service.py:70-97 | no history drops a record, moves it to another run, or takes a commit back, `force_reset` included |
| Snapshots.CheckpointsHoldTheLog | src/raef/logging_service.py:763-813 | after every history, a checkpoint that holds executions holds exactly those the log of its run knew at its sequence number, each in its status of then |
| Progress.IntentGoes | src/raef/logging_service.py:348-432 | with deduplication a new intent is accepted exactly when its plan item exists and its id is not blank, and then has its record |
| Progress.TurnGoes | src/raef/logging_service.py:292-346 | a turn is accepted exactly when its item exists and neither text is blank |
| Progress.MarkDoneGoes | src/raef/planner_state.py:362-392 | in a plan of pending and done items any existing item may be marked as done |
| Progress.LoggedIsKnown | src/raef/logging_service.py:815-827 | an execution whose intent is in the log has a record |
| Audit.AuditRun | src/raef/cli.py:224-293 | the audit reports nothing exactly when the run is clean, and every line it reports is justified, a checkpoint ahead of the log by the highest one there is |
| Audit.AheadIs | src/raef/cli.py:224-293 | the audit complains about checkpoints exactly when some checkpoint of the run is ahead of its log |
| Audit.SoundIsClean | src/raef/cli.py:229-255 | a store whose log is faithful and whose pending ids are open gives the audit nothing to report |
| Audit.AuditStaysSilent | src/raef/cli.py:232-255 | with deduplication, histories that keep only open ids pending are always clean |
| Audit.UndisciplinedReported | src/raef/logging_service.py:551-571 | keeping a failed id pending is reported |
| Executor.StepsPrepare | src/raef/txn_manager.py:154-192 | the steps up to the external call, left alone, compute the preparation as a whole |
| Transactions.TransactionManager.ExecuteTool | src/raef/txn_manager.py:130-303 | the imperative call: stores reached, at most one external call, forwarded id, result or exception; the record and the caller are told what the adapter answered, payload or error included |
| CallRecords.FinishTells | src/raef/txn_manager.py:203-303 | what was answered is what is recorded: the payload without an error, or the error without a payload, a timeout exactly for an ambiguous write; and what the caller is told |
| CallRecords.FinishGoes | src/raef/txn_manager.py:154-303 | a call that is ready to be sent is always recorded, and waits on the record it prepared |
| Adapter.ReplayToolAdapter.InvokeTool | example/sample_agent_openrouter_mock.py:102-136 | the adapter with its one lost request or lost answer |
| Adapter.WriteTells | example/sample_agent_openrouter_mock.py:102-136 | an answered write is remembered by the target and shows its receipt, one with a lost response is remembered all the same, a failed one or a lost request left no trace |
| Adapter.ReadTells | example/sample_agent_openrouter_mock.py:102-136 | a query is answered by the target and changes nothing; another tool is refused |
| Recovery.SettleEffect | src/raef/recovery/recovery/handler.py:126-189 | a probe changes at most its own record, to the status that its answer proves, and clears only committed ids |
| Recovery.ToolMessageClean | src/raef/recovery/recovery/handler.py:214-226 | the reconciled message is always accepted and stored as it is |
| Recovery.ReconcileEffect | src/raef/recovery/recovery/handler.py:204-226 | a reconciliation adds the tool message exactly when a committed record with a response lacks one |
| Recovery.DoneStays | src/raef/recovery/recovery/handler.py:69-122 | what a pass has settled or repaired stays so while it goes on to other ids |
| Recovery.HalfStepSame | src/raef/recovery/recovery/handler.py:126-226 | half-steps do not depend on time stamps of settled records |
| Recovery.SecondPassSilent | src/raef/recovery/recovery/handler.py:49-124 | with clock and verifier answers fixed a second pass writes nothing |
| Recovery.CutPassResumes | src/raef/recovery/recovery/handler.py:49-124 | a pass cut after any write and run again reaches the same records and messages, time stamps aside |
| Recovery.NeverTwoToolMessages | src/raef/recovery/recovery/handler.py:204-226 | no pass, cut anywhere, gives an id a second tool message |
| Recovery.PassSettles | src/raef/recovery/recovery/handler.py:96-118 | after a pass every execution is where the answer puts it and every committed one with a response has its message |
| PassResults.PassJudges | src/raef/recovery/recovery/handler.py:126-189 | after a pass an overdue write has the status that the answer proves, with exactly what was observed as its response, and every other record is as it was |
| PassResults.PassRepairs | src/raef/recovery/recovery/handler.py:204-226 | the history grows only by what committed executions answered, text and meta included, and then none lacks its message |
| Coordinator.RecoveryCoordinator.RecoverRun | src/raef/recovery/recovery/handler.py:49-124 | the imperative pass: the store it reaches, one decision per candidate in the order of the ids, each true of the record it leaves, every record as the answer of the verifier makes it, and exactly which handoffs are called |
| Coordinator.PassIsAnswered | src/raef/recovery/recovery/strategy.py:23-101 | one decision per candidate in order: "committed" exactly for a committed record, "replay" exactly for one that is logged or proved absent, "wait" exactly for one dispatched within its window, a handoff for the others |
| Handoffs.KeyIdentifies | src/raef/recovery/recovery/handler.py:191-202 | within a run the key of a handoff names its execution, its status and its deadline, for ids without a colon |
| Handoffs.FirstPassCalls | src/raef/recovery/recovery/handler.py:191-202 | the callbacks of a first pass are exactly its handoffs, once each, in order |
| Coordinator.RecoveryCoordinator.RecoverCandidate | src/raef/recovery/recovery/handler.py:69-122 | the body of the loop for one candidate |
| Coordinator.StaleIsCurrent | src/raef/recovery/recovery/handler.py:61-70 | the record read at the start of the pass is still the record when its turn comes |
| Coordinator.RecoveryCoordinator.VerifyAmbiguousWrite | src/raef/recovery/recovery/handler.py:126-189 | the refined decision and the durable record after a probe |
| Coordinator.RecoveryCoordinator.ReconcileToolMessage | src/raef/recovery/recovery/handler.py:204-226 | the search loop and the append |
| Coordinator.RecoveryCoordinator.EmitHandoffIfNeeded | src/raef/recovery/recovery/handler.py:191-202 | a key is called at most once in the life of the coordinator and never lost |
| Coordinator.DecisionMeets | src/raef/recovery/recovery/strategy.py:23-101 | the final decision is "committed" exactly when the record is committed after the probe |
| Machine.AtMostOneCommit | src/raef/txn_manager.py:154-202 | any interleaving, crashes, delayed or repeated delivery, other clients at every API level: at most one commit per execution id, no call's id commits unsent, the mismatch error never fires |
| Machine.ServeRemembers | src/raef/tools/mock_target.py:262-290 | what the target remembers under the id of a call is that call's own action |
| SingleRunner.CallStep | src/raef/txn_manager.py:154-303 | one step of a call: touches only its own open record, never lowers its rank, never trips the transition check |
| SingleRunner.RecordStep | src/raef/txn_manager.py:203-303 | the last durable step of a call always succeeds and closes or keeps the id as its answer says |
| SingleRunner.InvokeMark | src/raef/txn_manager.py:194-200 | an external call keeps the history authorized |
| SingleRunner.PassStep | src/raef/recovery/recovery/handler.py:89-122 | one step of a pass: the same, and it never fails |
| SingleRunner.OthersUndisturbed | src/raef/logging_service.py:815-822 | a process of another run is not disturbed by any step |
| RunnerLaws.InvocationsAuthorized | src/raef/txn_manager.py:154-202 | an id is invoked at most once before the verifier proved its absence, and every later invocation starts from that proof |
| RunnerLaws.NextIsSound | src/raef/txn_manager.py:154-303 | no action touches a record that is not open, and none lowers a rank |
| RunnerLaws.NeverRefused | src/raef/logging_service.py:829-838 | in no reachable state does the transition check or anything else refuse a recorded dispatch, a recorded result or a step of a recovery pass |
| RunnerLaws.NextInvokesOpen | src/raef/txn_manager.py:157-200 | only open executions are invoked |
| RunnerLaws.AtMostThreeChanges | src/raef/logging_service.py:70-97 | the status of an execution changes at most three times after its intent |
| RunnerLaws.CommittedForever | src/raef/txn_manager.py:116-119 | a committed record, response included, is never written again and its call never invoked again, across restarts, recovery and resets |
| RunnerLaws.CommittedStaysReused | src/raef/txn_manager.py:157-165 | whatever happens after the commit, a later call with this id is answered after its lookup, with the same record and no further invocation |
| LastingAnswers.AnswerArrives | src/raef/txn_manager.py:194-202 | what the target answered is what the process goes on to record |
| LastingAnswers.AnswerIsRecorded | src/raef/txn_manager.py:203-303 | in every reachable single-runner state it is recorded as it came |
| LastingAnswers.AnswerLasts | src/raef/txn_manager.py:157-165 | whatever happens afterwards, a later call with this id is answered with the very payload that the first was answered with |
| Replays.VerifiedBetweenIff | src/raef/txn_manager.py:203-215 | of two invocations of an id in a row: absence was verified in between exactly when the first was not a replay |
| Replays.NeverVerifiedAgain | src/raef/recovery/recovery/handler.py:49-124 | once absence is recorded, no continuation ever adds a new verification of it |
| RepeatedReplay.SecondReplayUnverified | src/raef/txn_manager.py:203-215 | from the start: two ambiguous answers, a full pass after each, and a third invocation that rests on the first verification |
| PendingLists.PendingIsExact | src/raef/logging_service.py:551-571 | without resets the pending list holds, once each, exactly the ids that are logged, dispatched or proved absent |
| PendingLists.PendingSinceReset | src/raef/logging_service.py:551-571 | with resets: once each, exactly the open ids that were logged since the last reset of the run |
| PendingLists.ResetKeepsExactIff | src/raef/logging_service.py:180-243 | a reset keeps exact lists exact if and only if its run has no open execution |
| PendingLists.ResetLosesPending | src/raef/logging_service.py:180-243 | from the start: a reset after a crash that leaves an open execution off the list |
| RunnerLaws.AbandonedForever | src/raef/txn_manager.py:157-165 | an intent whose process died before dispatch is never invoked again by any number of runners |
| Abandonment.CrashLosesCall | src/raef/txn_manager.py:157-192 | a reachable crash between intent and dispatch, after which the call is never invoked, whatever follows |
| Abandonment.InvokedIffOnTheWay | src/raef/txn_manager.py:154-202 | in every reachable state a logged execution is invoked in some continuation if and only if a process of it is past its intent and before its call; three actions are then enough |
| Abandonment.AbandonedIff | src/raef/txn_manager.py:183-192 | for calls that mark their dispatch: some continuation invokes a logged execution exactly when it is not abandoned |
| TwoRunners.LawsNeedOneRunner | src/raef/txn_manager.py:183-200 | from the start, all other hypotheses kept: a history of two processes that breaks both the authorization of invocations and the exactness of pending lists |
| TwoRunners.BothInvoke | src/raef/txn_manager.py:183-200 | the first half: from the lookup of a loggable write, both processes invoke it although nobody proved it absent |
| TwoRunners.PendingLost | src/raef/logging_service.py:92-96 | the second half: a failure recorded before an ambiguous answer leaves an open id that is not pending |
| MachineHistory.EveryStateAudited | src/raef/cli.py:224-293 | in every reachable state of any number of runners the laws of the log hold and the audit is silent |
| MachineHistory.PendingNeverWrong | src/raef/logging_service.py:551-571 | for any number of runners and with resets, pending lists are free of duplicates and hold only open ids of their run |
| MachineHistory.MachineOps | src/raef/logging_service.py:840-845 | every reachable store is the result of a history of disciplined facade operations |
| DriverLaws.ExecuteWrite | src/raef/txn_manager.py:130-303 | what executing a scripted write does to where it and the other writes stand |
| DriverLaws.RecoverStands | src/raef/recovery/recovery/handler.py:49-124 | a pass keeps landed writes landed and turns a lost one into a missing one once its second is over |
| DriverLaws.ResolvedAction | example/sample_agent_openrouter_mock.py:417-446 | the decision one second later is "replay" exactly for a lost write |
| DriverLaws.AfterCallKeeps | example/sample_agent_openrouter_mock.py:311-366 | after recovery, resolution and the finished item the write has landed |
| DriverLaws.ToolStepKeeps | example/sample_agent_openrouter_mock.py:264-367 | a turn that goes on to the next one has landed its write, wherever earlier processes died |
| DriverLaws.ExactlyOnce | example/sample_agent_openrouter_mock.py:215-381 | when the loop completes, in however many processes, the target holds one commit per scripted write and no other |
| DriverProgress.ToolStepGoes | example/sample_agent_openrouter_mock.py:264-367 | a turn without a crash point never raises, and every turn leaves store and target ready for the next |
| DriverProgress.CompletesExactlyOnce | example/sample_agent_openrouter_mock.py:215-381 | after processes that crash anywhere, the first one without a crash point gets to the end, and every scripted write is committed exactly once |
| DriverProgress.StartProvides | example/sample_agent_openrouter_mock.py:162-168 | starting a run with one titled item per turn gives the plan that this needs |
| DriverProgress.SettersAreTaken | src/raef/tools/mock_target.py:547-561 | a target takes any script that only sets values under proper keys |
| VisibleWrites.TurnSays | example/sample_agent_openrouter_mock.py:264-280 | a tool turn says its trimmed rationale as the assistant and attaches its output to its item |
| VisibleWrites.AnswerSays | example/sample_agent_openrouter_mock.py:369-381 | the final turn says the answer as the assistant |
| VisibleWrites.SettersAreVisible | example/sample_agent_openrouter_mock.py:215-381 | whatever crashed on the way, a completed run leaves the value of every scripted setter under its key, unless a later write of the script works on that key |
| LostRequest.StartedRunCompletes | example/sample_agent_openrouter_mock.py:156-381 | the same from `start_run` and a reseeded target to the end |
| LostRequest.LostRunCommitsIff | example/sample_agent_openrouter_mock.py:215-381 | a whole run whose first write loses its request and that gets to the end has committed this write if and only if window, visible value and target allowed the replay at its start |
| LostRequest.LostTurnCommitsIff | example/sample_agent_openrouter_mock.py:311-341 | the turn with the lost request commits if and only if the window, the visible value and the target allow the replay |
| LostRequest.FreshRunStarts | example/sample_agent_openrouter_mock.py:162-173 | starting a run with new items on a reseeded target gives the state that the theorem begins in |
| LostRequest.RestartResumes | example/sample_agent_openrouter_mock.py:162-168 | starting it again without reset changes nothing |
| LostRuns.LostRunsCommitIff | example/sample_agent_openrouter_mock.py:215-381 | for any processes that crash anywhere, the first with a request to lose: when the loop has completed, the first write is committed if and only if that process never sent it, or window, visible value and target allowed its replay |
| DriverHistory.RunIsHistory | example/sample_agent_openrouter_mock.py:156-381 | every run of the loop, crashes and lost messages included, ends in the store and the target of a single-runner history of the system that calls only what the script says |
| DriverHistory.RunObeysLaws | example/sample_agent_openrouter_mock.py:156-381 | so its invocations are authorized, its pending lists exact and its log sound |
| StepLoop.SampleAgent.RunProcess | example/sample_agent_openrouter_mock.py:215-381 | the imperative loop of one process computes the specified state and how it ended |
| StepLoop.SampleAgent.RunToolTurn | example/sample_agent_openrouter_mock.py:264-367 | one tool turn with its crash points |
| StepLoop.SampleAgent.FinishToolTurn | example/sample_agent_openrouter_mock.py:311-366 | recovery, resolution and the finished item |
| StepLoop.SampleAgent.ResolveRecovered | example/sample_agent_openrouter_mock.py:400-446 | only a replay decision about this id executes anything |
| StepLoop.SampleAgent.Recover | example/sample_agent_openrouter_mock.py:312-317 | the pass with the verifier on the target as it is now |
| StepLoop.SampleAgent.RunFinalTurn | example/sample_agent_openrouter_mock.py:369-381 | the final message and the finished item |
| StepLoop.SampleAgent.ExecuteCall | example/sample_agent_openrouter_mock.py:284-292 | one call of the transaction manager on the live objects |
| StepLoop.SampleAgent.AdvanceItem | example/sample_agent_openrouter_mock.py:364-366 | the finished item and the last crash point |
| Transaction.OutermostDecides | src/raef/runtime_store.py:192-216 | arbitrarily nested scopes change the store only when the outermost ends normally, to what the program without scopes computes |
| Transaction.InnerIsPlain | src/raef/runtime_store.py:194-201 | inside an open transaction inner scopes are as good as absent and nothing becomes durable |
| Transaction.CaughtInnerScopeKept | src/raef/runtime_store.py:194-201 | an inner scope whose exception is caught keeps its writes |
| FacadeScopes.OperationIsAtomic | src/raef/logging_service.py:840-845 | every facade operation, run as its nested scopes, ends in the store of its function, or raises and leaves the store untouched |
| FacadeScopes.WritesPerform | src/raef/logging_service.py:164-645 | the single writes of every operation, in the order of the source, amount to its function |
| FacadeScopes.NestedRefusalKeepsEvent | src/raef/runtime_store.py:194-201 | the price of nesting: a refused message inside a caller's transaction leaves its event without its message |
| Transaction.RuntimeStore.Enter | src/raef/runtime_store.py:194-207 | the connection and the depth on entry |
| Transaction.RuntimeStore.Leave | src/raef/runtime_store.py:199-216 | commit, rollback or nothing on exit |
| Transaction.RuntimeStore.RunBlock | src/raef/runtime_store.py:192-216 | running nested blocks by entering and leaving scopes |
| Transaction.RuntimeStore.Execute | src/raef/runtime_store.py:1013-1017 | a statement works on the open connection, or commits by itself |
| Payloads.OffloadTransparent | src/raef/runtime_store.py:433-508 | after any saves a record gives back exactly its last payloads, whatever was inlined, shared or already there |
| Payloads.StoreLoads | src/raef/runtime_store.py:959-1011 | a stored slot loads its payload and no artifact ever changes |
| Payloads.LoadsOne | src/raef/runtime_store.py:990-1011 | a slot gives back one payload at most |
| Payloads.SmallIsInline | src/raef/runtime_store.py:959-988 | a payload stays in its row exactly while it is within the limit; a longer one is filed under record, kind and digest |
| Payloads.PayloadTables.UpsertPayloads | src/raef/runtime_store.py:442-453 | the two imperative stores of one upsert |
| Payloads.PayloadTables.StoreOne | src/raef/runtime_store.py:959-988 | inline below the limit, else an artifact that is written only once |
| Monitor.PulseMonitor.Run | src/raef/recovery/monitor/pulse_monitor.py:26-41 | calls are a cooldown apart, and every unhealthy poll calls recovery unless the last call is younger than that |
| Monitor.RateBound | src/raef/recovery/monitor/pulse_monitor.py:36-40 | k calls take at least k - 1 cooldowns from first to last |

## Left out

- SQL text, pragmas, locks, fsync and the JSON file of the target: a facade operation and a target request are atomic steps.
- SHA-256: a parameter; collision-freedom among the strings at hand is a hypothesis wherever it is needed.
- Time stamps other than a record's last update, which decides the waiting window.
- Floating point: parsing and adding floats are parameters; deadlines are real numbers.
- JSON equality is structural: `1`, `1.0` and `True` are different values here, equal in Python. Strings are sequences of Unicode
  scalar values, so lone surrogates are out.
- Identifiers with surrounding whitespace: the store trims them when it reads, the model takes them as trimmed.
- Strings for result and execution statuses and for the operation type: the facade takes them parsed.
- PlanText.ParsePlanText: only numbered text with ASCII digits; the JSON form of a plan, which needs a JSON reader and Python's `str` of
  arbitrary values, is not part of this model.
- Logging.LoggingService.StartRun: called without a plan schema, whose normalised copy of the items then refuses nothing that the items
  do not; a schema given by the caller, and what may be wrong with it, is not part of this model.
- Plan descriptions and acceptance criteria, and model outputs that are handed in with the items of a new plan.
- The notes of the audit and evaluation spans.
- The order of `list_external_results` (creation time), which no modelled consumer depends on.
- The queries of the target other than `get_value`: the adapter takes them as a parameter that cannot change anything.
- Action names that are not strings, which Python converts by `str`.
- HTTP, MCP and CLI wrappers, decorators, LLM adapters, soft JSON mirrors, logging and printing.
- Transactions.TransactionManager.ExecuteTool: stated for the replay adapter; other adapters enter through `Executor.Step`, whose answer is
  arbitrary.
- PendingLists.PendingIsExact: for histories without resets; `PendingLists.PendingSinceReset` covers the others.
- LostRuns.LostRunsCommitIff: not for a call window of more than a second in a turn beyond the last plan item. A restarted process runs
  such turns again, and the passes of earlier ones, which go by the clock, may prove the absence in time for the replay.
  `LostRequest.LostRunCommitsIff` covers these turns for one process that does not crash.
- DriverProgress.CompletesExactlyOnce: queries are asked of the target by one fixed function that always answers; the target must take
  each write in its turn.
- DriverLaws.ExactlyOnce: the later `start_run` of a process is not part of the loop; `LostRequest.RestartResumes` shows that it
  changes nothing.
