# Event-sourced agent runs: lifecycle, effects and crash recovery

This project models how `agent_runtime_lab` keeps a bounded agent run durable. Events are appended to a per-run
log with a hash chain; a pure reducer folds the log into the state of the run; tool effects are guarded by
write-once intents and receipts; a bounded loop asks a model adapter for one action per turn and takes it through
authorization, gates, execution and verification; and after a stop at any point between two durable steps, the
run is taken up again from the stored facts alone.

## How the model is laid out

- `Values`, `Events`, `RunStates`: the vocabulary. A field of a decoded payload is any JSON value or absent, so
  malformed payloads are representable. A string is seen by the shape in which the runtime writes it.
- `Reducer`, `Replay`: the 25-event, 14-status machine as functions, its fold, and what redelivery cannot change.
- `Lifecycle`, `RunGrammar`: what every accepted log satisfies, by induction over logs: the fields of each status,
  the budget, conservation of requests, gates, starts and successes, and the order of events inside one tool call.
- `Snapshots`, `EventStores`: the state codec over JSON trees; the event and snapshot tables as a class, with a fault
  that overwrites a column of a snapshot row; the backfill of the chain digests.
- `ToolEffects`: the intent and receipt tables and the executor as classes. The executor may stop after the intent,
  after the invocation and after the receipt; a ghost ledger records what crossed the tool boundary, and when.
- `Protocol`, `RunInvariant`: what the runtime writes and reads back, and the facts about log, intents and receipts
  that hold of a run wherever a process may stop.
- `Continuation`: `Next` gives the durable step that the uninterrupted run takes from a given durable world, and
  `Finish` the world in which those steps end. They read nothing but durable facts, so they say what an
  uninterrupted process does and what a restarted one would have to do.
- `Recovery`, `Guards`: following the uninterrupted run, and exactly when the reducer takes the event that an operation
  persists, although it is persisted before it is validated.
- `Storages`, `LogScans`, `OperationSteps`, `Runtime`: all runs of one database; the scans that find requests, actions,
  proposals and evidence again; what each operation may do and comes to; and the class `AuthorizedToolRuntime`, whose
  methods may stop after every append.
- `AdapterCalls`, `LoopSteps`, `LoopEvidence`, `AgentLoop`, `Histories`: the adapter and its ledger, the steps of the
  loop, what the loop reports as a reading of the log, the class `ModelDrivenAgent` with `RunLoop`, `ResumeLoop`, a
  `Restart` that dispatches on the status found and `KeepRestarting`, and any sequence of processes and faults on one
  database.
- `ConcreteRuns`, `Unguarded`: runs that can be written down; the inputs on which a naive claim fails.
- `Trace`: the trace built by one replay.

A method that may be interrupted returns an `Outcome`: it is done, it raised, or the process stopped. A stop is a
nondeterministic `return Crashed` at a point between two durable steps, so what a contract promises for `Crashed`
holds at every such point.

The operations of the runtime require `Valid()` and nothing else: the tables are as their stores leave them, and the
ledger is sound. Their contracts say for every run and every argument what is persisted, and whether the log still
replays. What they promise about one run is stated under `Inv` of that run alone (turn, request, gate, intent, receipt
and evidence fit together); no other run's state matters to it. `Inv` holds of a run before its first event, and every
operation keeps it or leaves a log that no longer replays (`Kept`).

The adapter, the authorization policy, the gate evaluator, the verifiers, the tool runner and the clock are arbitrary
functions in `Config`. Each process of a history has its own `Config`, so none of them need be constant over a run's
life; only the registry of retry-safe tools is fixed for a history.

## Main results

- Crash equivalence (`AgentLoop.ModelDrivenAgent.Restart`, `AgentLoop.ModelDrivenAgent.KeepRestarting`): from any world in
  which a process of a budgeted run may have stopped, a restart that is not stopped itself leaves exactly the log, state,
  intents and receipts of the uninterrupted run, if and only if the run was not stuck: the adapter had not been asked
  without a stored answer, no stored request waited for its decision, and no effect of a tool that must not be retried was
  open. Stopped restarts may be repeated any number of times; what counts is how the last one found the run. Each way of
  being stuck is met on an ordinary run (`ConcreteRuns.StuckIsReached`). There are two other ways to part from the
  uninterrupted run: a verifier that fails a step without saying why, which ends the run's life
  (`LoopSteps.VerificationStep`), and a waiting turn that a caller began on another observation than the log's, as the
  loop never does (`Observed`; `OperationSteps.RecoveredInputIsOriginal` says exactly what a recovery then sees).
- The loop reports what the log says (`AgentLoop.ModelDrivenAgent.RunLoop`, `AgentLoop.ModelDrivenAgent.ResumeLoop`):
  actions, verdicts and decisions are those of the events appended, in their order, behind the action that was pending
  or recovered; each tool result belongs to one request and carries its stored receipt.
- Safety over histories (`Histories.Live`), of any operations with any arguments, damage to snapshots included: an
  unsafe tool is invoked at most once per effect, never after its receipt, and only with the name and arguments of the
  latest request of a log in TOOL_RUNNING; each receipt tells what the last invocation of its effect did; of a run that
  replays, VERIFYING always has its evidence, and the adapter is called at most once per turn and at most `max_steps`
  times. A run replays as long as each operation on it fitted its state.
- Exactly which deliveries replay, redeliveries included (`Replay.ReduceAcceptsExactly`,
  `Replay.DeliveryAcceptsExactly`), and exactly when each event type continues a log (`Lifecycle.NextEventDecides`).
- A gate is bound to its call and to the terms of the policy that opened it (`OperationSteps.GateKeepsTerms`): an
  approval or answer goes on exactly while the policy allows the call or keeps the mode and the paths, and a user gate
  allows exactly the configured number of answers (`OperationSteps.AnswerDecides`).
- Exactly when an operation leaves a log that still replays (the contracts of `Runtime.AuthorizedToolRuntime`), with the
  inputs on which it does not (`Unguarded`).
- Snapshots (`EventStores.SnapshotIsAcceptedExactly`, `EventStores.AcceptedSnapshotIsExact`,
  `EventStores.DamageIsHarmless`): a saved snapshot is accepted exactly on the logs that share its prefix, and accepted
  anywhere it cannot change what loading returns. One damaged column cannot either; it makes loading raise if and only
  if the driver cannot return that column or `state_json` is no longer text.
- Grammar, budget and conservation of every accepted log (`RunGrammar`, `Lifecycle`).

## Where the documentation says less, or more, than the code does

The model follows the code.

- README.md:205 speaks of completion from READY. The reducer also accepts `completion.accepted` from ACTION_PENDING, and
  run-scoped `verification.succeeded` completes a run from VERIFYING (`Lifecycle.TransitionMoves`).
- README.md:207-209 has the reducer reject completions and model tool events beyond the budget. It does, but they are
  persisted before it sees them: with the budget spent, `begin_model_action` and `record_completion` in READY leave a
  log that no longer replays (`Unguarded.SpentBudgetPoisons`). A request without a step identity, which no model turn
  makes but an application may append, is not checked at all (`Unguarded.StepLessRequestIgnoresBudget`); step
  verification is not either, and stays within the budget because its step was admitted
  (`Lifecycle.StepRequestsWithinBudget`).
- verification.py:42-48 accepts a failed result without a summary. The reducer rejects the event that it leads to, after
  it was persisted (`Unguarded.SilentVerdictPoisons`).
- README.md:214-218 promises that no run is left ambiguously READY by a failed loop. Two other ambiguities remain after a
  stop: a run in TOOL_PENDING is not taken up by any operation, and one in MODEL_PENDING is failed although the adapter
  may have answered (`Recovery.StuckIsNotFinished`, `AgentLoop.UnknownIsNotFinished`).
- docs/superpowers/specs/2026-08-15-r4j-b-snapshot-tail-replay-design.md:22-23 has a corrupt snapshot ignored. A row
  with a column that is not UTF-8, in whatever column, or with a `state_json` that is not text makes loading raise
  instead of falling back to full replay (`EventStores.DamageIsHarmless`, `EventStores.UnreadableColumnRaises`).
- README.md:221-223 has the runtime reconstruct the original `ModelInput`. It rebuilds the observation from the log,
  which is the original one if and only if the turn was begun on it (`OperationSteps.RecoveredInputIsOriginal`).

## Model

| member | source | states |
|---|---|---|
| RunStates.FingerprintFor | src/agent_runtime_lab/domain/state.py:72-76 | the fingerprint recorded for an event identity, or none exactly when no applied entry carries that identity |
| Replay.ReplayTail | src/agent_runtime_lab/domain/replay.py:15-20 | the loop over delivered events returns the left fold of the reducer, first error included |
| Replay.ReduceBooks | src/agent_runtime_lab/domain/reducer.py:498-526 | an accepted delivery is either an exact redelivery that changes nothing, or a live run's next event, which is booked as exactly one new entry |
| Replay.ReduceDecides | src/agent_runtime_lab/domain/reducer.py:498-526 | the reducer's answer to every delivery: an exact redelivery is accepted and changes nothing, in every status; of the others the error of the first check that fails, or the transition, booked once |
| Replay.ReduceAcceptsExactly | src/agent_runtime_lab/domain/reducer.py:498-526 | a delivery is accepted if and only if it was applied before, or is a live run's next event under a new identity with a transition |
| Replay.ReplayBooks | src/agent_runtime_lab/domain/reducer.py:498-526 | applied identities are distinct, carry the run's own events, and sit at their sequence numbers; the next sequence number is their count |
| Replay.RedeliveryIsInvisible | src/agent_runtime_lab/domain/replay.py:10-20 | an accepted delivery replays like its first occurrences, whose sequence numbers are exactly 0..n-1 |
| Replay.RedeliveryIsAccepted | src/agent_runtime_lab/domain/replay.py:10-20 | if the first occurrences replay, so does the delivery with all its repetitions, to the same result |
| Replay.DeliveryAcceptsExactly | src/agent_runtime_lab/domain/replay.py:10-20 | a delivery replays if and only if its first occurrences do, and then each identity stands for one event |
| Replay.DeliveryConfluence | src/agent_runtime_lab/domain/replay.py:10-20 | two accepted deliveries of the same event set, in any order and multiplicity, end in equal states |
| Replay.NewEventDecides | src/agent_runtime_lab/domain/reducer.py:498-526 | a new event at the end of an accepted log is accepted exactly when the run is live and the transition exists |
| Lifecycle.ReachableShape | src/agent_runtime_lab/domain/state.py:31-62 | every accepted log ends in a state whose active fields are set exactly in the statuses they belong to and whose turn stays within the budget |
| Lifecycle.DeliveredShape | src/agent_runtime_lab/domain/reducer.py:79-526 | the same for every accepted delivery, with next_sequence equal to the number of distinct events |
| Lifecycle.TerminalIsEmpty | src/agent_runtime_lab/domain/reducer.py:79-493 | a terminal state keeps no identity of an open action, call, step or gate, although most terminal branches clear only some of them |
| Lifecycle.FailureTellsReason | src/agent_runtime_lab/domain/reducer.py:79-493 | a failed run carries exactly the reason of the event that failed it |
| Lifecycle.KindNames | src/agent_runtime_lab/domain/events.py:16-41 | each of the 25 event types belongs to one kind of payload and no other |
| Lifecycle.TransitionMoves | src/agent_runtime_lab/domain/reducer.py:79-493 | which event leads from which status to which, what it does to turn, budget and step identity |
| Lifecycle.TransitionDecides | src/agent_runtime_lab/domain/reducer.py:79-493 | exactly when each of the 25 event types is taken: in its statuses, naming the turn, action, call, gate or step that is open, suiting who must decide, with the fields it must bring |
| Lifecycle.NextEventDecides | src/agent_runtime_lab/domain/reducer.py:79-526 | the same for logs: exactly when a log that replays can be continued by an event |
| Lifecycle.BudgetNeverChanges | src/agent_runtime_lab/domain/reducer.py:96-102 | the budget fixed at creation is the budget of every later state |
| Lifecycle.StepRequestsWithinBudget | src/agent_runtime_lab/domain/reducer.py:228-247 | at most max_steps tool requests that carry a step identity in any accepted log, although step verification has no budget check |
| Lifecycle.EachTurnAskedOnce | src/agent_runtime_lab/domain/reducer.py:137-152 | a turn's action is requested at most once, and at most max_steps requests occur in any accepted log |
| Lifecycle.FlowConservation | src/agent_runtime_lab/domain/reducer.py:228-493 | requests, escalations, clearances, starts and successes balance with their outcomes and the one still open, in every accepted log that was not cancelled |
| Lifecycle.TurnsAreCounted | src/agent_runtime_lab/domain/reducer.py:194-226 | the turn counter is the number of completion decisions plus step-scoped verifications |
| RunGrammar.ReachablePhase | src/agent_runtime_lab/domain/reducer.py:228-484 | where an accepted log stands inside the current call: the events since the latest request, and the gate fields they imply |
| RunGrammar.StartedCallWasCleared | src/agent_runtime_lab/domain/reducer.py:228-416 | between a request and its start stands one authorization, or an escalation, revisions and retries, and one clearance of the newest digest and revision in the way its mode demands |
| RunGrammar.CompletionHasEvidence | src/agent_runtime_lab/domain/reducer.py:194-226 | a completed run ends in an accepted completion, or in adjacent start, success and run-scoped verification |
| RunGrammar.DecisionNamesNewest | src/agent_runtime_lab/domain/reducer.py:277-393 | each accepted gate decision names the newest proposal; revisions rise by one, attempts count 1, 2, ... within the limit of the revision |
| RunGrammar.SupersededStaysSuperseded | src/agent_runtime_lab/domain/reducer.py:294-326 | a proposal that a revision replaced is never decided on again within the call |
| Snapshots.CodecRoundTrip | src/agent_runtime_lab/persistence/snapshots.py:14-98 | decoding an encoded state gives that state back |
| Snapshots.CodecInjective | src/agent_runtime_lab/persistence/snapshots.py:14-98 | different states have different encodings |
| EventStores.ChainBindsPrefix | src/agent_runtime_lab/persistence/sqlite_store.py:27-29 | equal chain digests imply equal event prefixes |
| EventStores.SnapshotExistsExactly | src/agent_runtime_lab/persistence/sqlite_store.py:232-275 | a state has a snapshot if and only if a stored prefix replays to it, and the row holds the schema version, that length, its chain digest, the encoded state and its digest |
| EventStores.SnapshotIsAcceptedExactly | src/agent_runtime_lab/persistence/sqlite_store.py:277-312 | a snapshot saved on one log is accepted on another, as the saved state, if and only if the two logs share the events below it, however much longer either is |
| EventStores.UnstruckIsAccepted | src/agent_runtime_lab/persistence/sqlite_store.py:277-312 | a row that nothing has damaged since it was saved is accepted, however far the log has grown behind it |
| EventStores.AcceptedSnapshotIsExact | src/agent_runtime_lab/persistence/sqlite_store.py:232-312 | a snapshot saved against one log and accepted on another is the saved state, the logs share that prefix, and snapshot plus tail is full replay, errors included |
| EventStores.DamageIsHarmless | src/agent_runtime_lab/persistence/sqlite_store.py:277-312 | after damage to any single column of a saved row, and any appends, loading yields the full replay if and only if the driver can return every selected column and state_json is text; otherwise loading raises |
| EventStores.UnreadableColumnRaises | src/agent_runtime_lab/persistence/sqlite_store.py:280-298 | a saved row loads as full replay; with its state_json untouched and one other column no longer UTF-8, or with a BLOB as state_json, loading raises |
| EventStores.MisfiledSnapshotIsRefused | src/agent_runtime_lab/persistence/sqlite_store.py:295-312 | a row filed under another run is not accepted there |
| EventStores.EventStore.Append | src/agent_runtime_lab/persistence/sqlite_store.py:117-192 | an event is accepted exactly when it is a stored event or a new identity at the next sequence, else it conflicts or is out of sequence; it extends its own run's log by itself and nothing else |
| EventStores.EventStore.LoadTail | src/agent_runtime_lab/persistence/sqlite_store.py:199-230 | the stored events of the run from a position on, in sequence order |
| EventStores.SelectFrom | src/agent_runtime_lab/persistence/sqlite_store.py:199-230 | selecting by sequence number over the rows of one run yields that suffix |
| EventStores.EventStore.SaveSnapshot | src/agent_runtime_lab/persistence/sqlite_store.py:232-275 | a snapshot is stored exactly when the stored prefix replays to the given state, in place of the run's previous one |
| EventStores.EventStore.LoadSnapshot | src/agent_runtime_lab/persistence/sqlite_store.py:277-312 | raises exactly where some selected column is not UTF-8, or a row of the current schema has a state_json that is not text; a row not damaged since it was saved yields the saved state, however far the log has grown; whatever is accepted is the replay of a prefix of the current log |
| EventStores.EventStore.DamageSnapshot | src/agent_runtime_lab/persistence/sqlite_store.py:277-312 | a fault on one column, at most one since the row was saved, leaves there any value, a foreign one, or text that cannot be decoded, and changes nothing else; the store's loading is then still exact or raises |
| EventStores.LegacyTable.BackfillChainDigests | src/agent_runtime_lab/persistence/sqlite_store.py:97-115 | one sorted scan of a many-run table writes exactly the digests that appending each run's events in order would have written |
| EventStores.BackfilledTableIsStored | src/agent_runtime_lab/persistence/sqlite_store.py:97-115 | with the digests that the backfill writes, each run's rows are as appends would have left them, so snapshots can be taken and accepted on them |
| ToolEffects.ToolEffectStore.SaveIntent | src/agent_runtime_lab/persistence/sqlite_tool_effect_store.py:96-149 | write-once intents: redelivery accepted, a different intent refused, nothing else changed |
| ToolEffects.ToolEffectStore.SaveReceipt | src/agent_runtime_lab/persistence/sqlite_tool_effect_store.py:173-234 | write-once receipts beside their intents: redelivery accepted, conflict and missing intent refused |
| ToolEffects.ReceiptOf | src/agent_runtime_lab/durable_tool_executor.py:125-156 | the receipt carries what the runner did: the output that was returned, or the type, message and timeout of what was raised |
| ToolEffects.DurableToolExecutor.Execute | src/agent_runtime_lab/durable_tool_executor.py:85-118 | everything one call can do to intents, receipts and the tool, at each point where it may stop: intent, then one invocation, then the receipt that carries its reply, or a redelivery, or a refusal |
| ToolEffects.DurableToolExecutor.InvokeAndRecord | src/agent_runtime_lab/durable_tool_executor.py:125-167 | the tool is invoked exactly once and a receipt that carries its reply is stored, unless the process stops in between |
| ToolEffects.ExecutorIsAtMostOnce | src/agent_runtime_lab/durable_tool_executor.py:85-167 | however a call ends, no tool that is not retry-safe has been invoked twice for one effect, none after its receipt, and nothing stored was replaced |
| ToolEffects.ExecutorIsWitnessed | src/agent_runtime_lab/durable_tool_executor.py:125-167 | however a call ends, each stored receipt tells what the last invocation of its effect did |
| ToolEffects.SuccessIsReturned | src/agent_runtime_lab/durable_tool_executor.py:151-156 | a successful receipt holds the very output that the last invocation of its effect returned |
| Protocol.ReplyIsReported | src/agent_runtime_lab/authorized_tool_runtime.py:794-827 | from runner reply to event: a return is TOOL_SUCCEEDED with its effect, a timeout and an error are reported with their own message or the default, a timeout with its seconds |
| Protocol.VerificationIsObserved | src/agent_runtime_lab/authorized_tool_runtime.py:873-885 | the evidence of a passed step is what the next model input observes |
| Protocol.OnlyStepsAreObserved | src/agent_runtime_lab/authorized_tool_runtime.py:873-885 | nothing else is observed, and before the first verified step an empty object |
| Protocol.ProposalReadsBack | src/agent_runtime_lab/authorized_tool_runtime.py:506-591 | an action read back from its own event is that action |
| Protocol.RequestReadsBack | src/agent_runtime_lab/authorized_tool_runtime.py:857-871 | a tool request read back from its own event is that request |
| Protocol.ProposalDigestBinds | src/agent_runtime_lab/ownership/gates.py:92-108 | equal proposal digests are about the same run, step, call, tool, arguments, paths, ownership mode and revision |
| Protocol.StampedReduces | src/agent_runtime_lab/authorized_tool_runtime.py:838-855 | what replay says about a stamped event: terminal run, refused transition, or the transition |
| RunInvariant.AppendKeepsInv | src/agent_runtime_lab/authorized_tool_runtime.py:838-855 | every event the runtime appends, also for a call that was submitted in READY, keeps the facts that recovery relies on: turn, request, gate digest, intent, receipt and evidence |
| RunInvariant.AppendKeepsObserved | src/agent_runtime_lab/authorized_tool_runtime.py:838-855 | a turn that waits on the log's own observation goes on to do so, whatever is appended |
| RunInvariant.IntentKeepsInv | src/agent_runtime_lab/persistence/sqlite_tool_effect_store.py:96-149 | saving the intent of the request in force keeps those facts |
| RunInvariant.ReceiptKeepsInv | src/agent_runtime_lab/persistence/sqlite_tool_effect_store.py:173-234 | saving its receipt keeps them |
| Continuation.NextIsAcceptable | src/agent_runtime_lab/fake_agent.py:342-487 | whatever the uninterrupted run appends next is accepted by the reducer; a failed verification without a reason is no such step |
| Continuation.StepIsSafe | src/agent_runtime_lab/fake_agent.py:342-487 | each durable step keeps the invariant and uses up a measure that starts from max_steps - turn_index |
| Continuation.FinishIsReached | src/agent_runtime_lab/fake_agent.py:342-487 | the uninterrupted run of a bounded run reaches a world with no next step, within its event allowance |
| Continuation.EventAllowance | src/agent_runtime_lab/fake_agent.py:342-487 | from READY at turn t at most 7 * (max_steps - t) + 1 events follow |
| Recovery.ExecutionFollows | src/agent_runtime_lab/durable_tool_executor.py:85-167 | at each point where the executor may stop, the durable world lies on the uninterrupted run; on return the receipt is stored beside its intent |
| Recovery.RaisedExecution | src/agent_runtime_lab/durable_tool_executor.py:85-118 | the executor raises only where the uninterrupted run ends, or where a retry of an open effect would be unsafe |
| Recovery.FollowedToTheEnd | src/agent_runtime_lab/fake_agent.py:342-487 | a process that halts on the uninterrupted run has arrived where that run ends, unless its waiting turn was begun on another observation than the log's |
| Recovery.StuckIsNotFinished | src/agent_runtime_lab/authorized_tool_runtime.py:413-428 | a run left waiting for the adapter, for authorization, or inside an unsafe effect is never where the uninterrupted run ends |
| Guards.BudgetEndIsAcceptable | src/agent_runtime_lab/authorized_tool_runtime.py:464-473 | the event that reports a spent budget is accepted and fails the run |
| Guards.ProposalIsAcceptable | src/agent_runtime_lab/authorized_tool_runtime.py:506-543 | in MODEL_PENDING any validated action may be persisted, and the turn's input does not change |
| Guards.AskDecides | src/agent_runtime_lab/domain/reducer.py:137-152 | an adapter intent is taken exactly in READY with room in the budget |
| Guards.FailureDecides | src/agent_runtime_lab/authorized_tool_runtime.py:593-602 | a model failure is taken exactly in READY and MODEL_PENDING, and fails the run with its reason |
| Guards.CompletionDecides | src/agent_runtime_lab/authorized_tool_runtime.py:658-709 | in the two statuses that completion recording allows, the decision is taken exactly with room in the budget |
| Guards.RequestDecides | src/agent_runtime_lab/authorized_tool_runtime.py:166-181 | a request is taken exactly in READY, or in ACTION_PENDING if it names the pending event, with room in the budget; neither its step nor its arguments matter |
| Guards.RunVerificationDecides | src/agent_runtime_lab/authorized_tool_runtime.py:604-627 | run-scoped evidence is taken exactly in VERIFYING and, if it failed, with a reason; it ends the run, failed with that reason |
| Guards.ApprovalIsAcceptable | src/agent_runtime_lab/authorized_tool_runtime.py:233-290 | a matching reference at a pair gate clears it |
| Guards.RejectionIsAcceptable | src/agent_runtime_lab/authorized_tool_runtime.py:258-267 | a matching reference may always be rejected, which fails the run with the given reason |
| Guards.EvaluationIsAcceptable | src/agent_runtime_lab/authorized_tool_runtime.py:323-352 | turning a last-attempt retry into a block makes every evaluation acceptable: a pass clears the gate, a retry leaves the same gate with one attempt used, a block fails the run with its reason |
| Guards.RevisionDecides | src/agent_runtime_lab/authorized_tool_runtime.py:377-411 | a revision of the waiting gate is taken exactly if its digest is a new one |
| Guards.RevisionIsNew | src/agent_runtime_lab/authorized_tool_runtime.py:377-411 | where the runtime opened the gate, a revision's digest differs from the one it replaces because its revision does |
| Guards.RevisionOpens | src/agent_runtime_lab/authorized_tool_runtime.py:377-411 | after a revision the gate waits for exactly the new proposal, afresh, with the configured number of attempts |
| ConcreteRuns.StuckIsReached | src/agent_runtime_lab/fake_agent.py:342-487 | an ordinary first turn passes through each way of being stuck: waiting for the adapter, waiting for authorization, and an unsafe effect open; none of these is the end of the run |
| ConcreteRuns.VerifyingIsReached | src/agent_runtime_lab/fake_agent.py:342-487 | the first turn of a run whose call returns reaches VERIFYING |
| ConcreteRuns.BegunOnAnother | src/agent_runtime_lab/authorized_tool_runtime.py:482-504 | begin_model_action takes a context with another observation in a run that was just started; the run keeps its promises, but its turn is not on the log's own observation |
| Unguarded.PoisonIsPermanent | src/agent_runtime_lab/domain/replay.py:10-20 | a log that does not replay keeps failing with the same error, whatever is appended |
| Unguarded.SubmitBeforeStartPoisons | src/agent_runtime_lab/authorized_tool_runtime.py:166-181 | submitting to a run that was created and not started leaves a log that no longer replays |
| Unguarded.SilentVerdictPoisons | src/agent_runtime_lab/authorized_tool_runtime.py:604-656 | in VERIFYING a failed result with an empty summary leaves a log that no longer replays, for the run and for the step |
| Unguarded.SpentBudgetPoisons | src/agent_runtime_lab/authorized_tool_runtime.py:482-504 | in a run whose one step was spent on a rejected answer, begin_model_action and record_completion pass their guards and leave a log that no longer replays |
| Unguarded.StepLessRequestIgnoresBudget | src/agent_runtime_lab/domain/reducer.py:228-247 | in the same run a request without a step identity is accepted, and one with a step identity is not |
| Storages.JoinedIsPersisted | src/agent_runtime_lab/authorized_tool_runtime.py:838-855 | a stamped event that was appended to a run that replays leaves a log that replays if and only if the run is live and the transition exists; no other run is touched |
| Storages.PersistedIsKept | src/agent_runtime_lab/authorized_tool_runtime.py:838-855 | a disciplined event leaves either a log that no longer replays or a run that keeps its promises |
| Storages.SoundExecution | src/agent_runtime_lab/durable_tool_executor.py:85-167 | however the executor ends for the request in force, the at-most-once ledger and its justifications are kept, only that run is touched, and its world follows the uninterrupted run |
| Storages.OtherRunKeeps | src/agent_runtime_lab/authorized_tool_runtime.py:136-164 | an operation on one run leaves every other run's promises intact |
| Storages.StampIsFresh | src/agent_runtime_lab/authorized_tool_runtime.py:846-853 | a stamped event identity is in use only if that very event is stored |
| LogScans.FindLast | src/agent_runtime_lab/authorized_tool_runtime.py:857-871 | the reversed scan finds the latest matching event, or none |
| LogScans.FindPending | src/agent_runtime_lab/authorized_tool_runtime.py:556-567 | the forward scan finds the latest intent of the invocation and the latest event of the pending identity |
| LogScans.ObservationFound | src/agent_runtime_lab/authorized_tool_runtime.py:873-885 | the latest step verification is the observation |
| LogScans.RequestFound | src/agent_runtime_lab/authorized_tool_runtime.py:857-871 | in a tool phase the latest request of the active call is the request that opened the phase |
| LogScans.StepRequestFound | src/agent_runtime_lab/authorized_tool_runtime.py:739-769 | while verifying, the latest request of the active step is the request in force |
| LogScans.PendingFound | src/agent_runtime_lab/authorized_tool_runtime.py:545-591 | the intent and the action of the pending turn are the last two events, observation included |
| LogScans.EvidenceFound | src/agent_runtime_lab/authorized_tool_runtime.py:711-737 | in VERIFYING the last event is the success, and its effect names a stored successful receipt of the active request's intent |
| LogScans.ProposalFound | src/agent_runtime_lab/authorized_tool_runtime.py:887-914 | while the gate waits, the proposal found for the active reference is the newest one |
| LogScans.ProposalAfter | src/agent_runtime_lab/authorized_tool_runtime.py:887-914 | the proposal read back is the one just opened or revised, with its own reasons and mode; a retry leaves it |
| OperationSteps.PendingIsExact | src/agent_runtime_lab/authorized_tool_runtime.py:545-591 | in ACTION_PENDING the action and the context that are read back are those of the last two events: the current turn, on the observation that the adapter intent recorded |
| OperationSteps.PendingInput | src/agent_runtime_lab/authorized_tool_runtime.py:545-591 | that context is the turn's own input if and only if the turn was begun on the log's own observation |
| OperationSteps.BeginsOwnTurn | src/agent_runtime_lab/authorized_tool_runtime.py:482-492 | a context may begin a turn exactly if the run is READY and it is the turn's own input, on whatever observation |
| OperationSteps.AnswersOwnTurn | src/agent_runtime_lab/authorized_tool_runtime.py:506-522 | an action is taken exactly if it answers the intent of the current turn |
| OperationSteps.CompletesOwnTurn | src/agent_runtime_lab/authorized_tool_runtime.py:658-694 | a decision is recorded exactly if its evidence is about the answer's own text, and the answer is the pending one judged on the pending context, or is given in READY on the turn's own input |
| OperationSteps.RecoveredInputIsOriginal | src/agent_runtime_lab/authorized_tool_runtime.py:739-769 | a call requested for a proposed action is recovered on the turn that the adapter was asked about, and on the observation that it was asked with if and only if the action waited on the log's own observation |
| OperationSteps.StepVerificationDecides | src/agent_runtime_lab/authorized_tool_runtime.py:629-656 | the verdict on the active step is taken exactly if it passed or says why not; it returns the run to READY or fails it |
| OperationSteps.EvidenceIsReturned | src/agent_runtime_lab/authorized_tool_runtime.py:711-737 | the evidence that is verified is what the tool returned when it was last invoked, with the name and arguments of the request in force |
| OperationSteps.DecisionStep | src/agent_runtime_lab/authorized_tool_runtime.py:189-231 | the policy's decision on a recorded request is accepted and the next step: a denial fails the run with its reason, an escalation opens exactly the gate of its proposal, which shows the call with the mode and reasons of the decision, with the configured number of attempts |
| OperationSteps.GateHasTerms | src/agent_runtime_lab/authorized_tool_runtime.py:189-231 | in a run that keeps its promises a waiting gate waits on the request in force, under the ownership mode and the paths that its digest was made for |
| OperationSteps.GateKeepsTerms | src/agent_runtime_lab/authorized_tool_runtime.py:233-375 | an approval or answer under the current policy goes on if and only if the policy allows the request by now or still escalates it under the same mode and paths; approvals are for pair gates and answers for user gates |
| OperationSteps.AnswerDecides | src/agent_runtime_lab/authorized_tool_runtime.py:323-375 | a retry waits for the next answer as long as attempts are left, and the last one fails the run as a block with its own reason; a block fails it with the evaluator's; a pass executes |
| OperationSteps.StartsRun | src/agent_runtime_lab/authorized_tool_runtime.py:771-793 | starting an authorized call is accepted and the next step, and no effect of it is open before |
| Runtime.AuthorizedToolRuntime.LoadState | src/agent_runtime_lab/authorized_tool_runtime.py:430-442 | with or without a snapshot, loading is full replay; it raises exactly where the log does not replay or the snapshot row raises on being read |
| Runtime.AuthorizedToolRuntime.Append | src/agent_runtime_lab/authorized_tool_runtime.py:838-855 | a run that does not load is not touched; the log of one that does grows by exactly the stamped event, and still replays if and only if the reducer takes it |
| Runtime.AuthorizedToolRuntime.BuildModelInput | src/agent_runtime_lab/authorized_tool_runtime.py:458-480 | the turn's own input in READY with budget; with the budget spent, the event that fails the run and the typed error |
| Runtime.AuthorizedToolRuntime.LoadStepObservation | src/agent_runtime_lab/authorized_tool_runtime.py:873-885 | the evidence of the latest verified step |
| Runtime.AuthorizedToolRuntime.BeginModelAction | src/agent_runtime_lab/authorized_tool_runtime.py:482-504 | the intent is appended exactly when the context names the current turn in READY; the log then still replays if and only if the budget has room |
| Runtime.AuthorizedToolRuntime.PersistModelAction | src/agent_runtime_lab/authorized_tool_runtime.py:506-543 | the action is appended exactly when it answers the active invocation, and what is read back is that action in its own context |
| Runtime.AuthorizedToolRuntime.LoadPendingModelAction | src/agent_runtime_lab/authorized_tool_runtime.py:545-591 | the action and context found by the forward scan, or the error; in a run that keeps its promises precisely what was persisted |
| Runtime.AuthorizedToolRuntime.RecordModelActionFailure | src/agent_runtime_lab/authorized_tool_runtime.py:593-602 | the failure is appended in every status; the log still replays, failed with that reason, if and only if the run was READY or MODEL_PENDING |
| Runtime.AuthorizedToolRuntime.RecordVerification | src/agent_runtime_lab/authorized_tool_runtime.py:604-627 | the result is appended in every status; the log still replays, completed or failed with the result's summary, if and only if the run was VERIFYING and the result passed or has a summary |
| Runtime.AuthorizedToolRuntime.RecordStepVerification | src/agent_runtime_lab/authorized_tool_runtime.py:629-656 | the active step's result is appended in VERIFYING only; the log still replays if and only if it passed or has a summary |
| Runtime.AuthorizedToolRuntime.RecordCompletion | src/agent_runtime_lab/authorized_tool_runtime.py:658-709 | a decision is appended exactly for the pending answer judged on its own text and context, or for a current context in READY; the log still replays if and only if the budget has room |
| Runtime.AuthorizedToolRuntime.LoadVerificationReceipt | src/agent_runtime_lab/authorized_tool_runtime.py:711-737 | what is handed out is what the tool returned; in a run that keeps its promises the evidence is never missing, and it is the stored receipt of the request in force |
| Runtime.AuthorizedToolRuntime.LoadModelToolRecovery | src/agent_runtime_lab/authorized_tool_runtime.py:739-769 | the model input, action and receipt of the verifying turn, from durable facts alone; the receipt holds what the tool returned |
| Runtime.AuthorizedToolRuntime.Execute | src/agent_runtime_lab/authorized_tool_runtime.py:771-836 | start, invoke and report follow the uninterrupted run at every stop; VERIFYING exactly for a successful receipt; an open unsafe effect is refused |
| Runtime.AuthorizedToolRuntime.Submit | src/agent_runtime_lab/authorized_tool_runtime.py:166-231 | the request is appended in every status; the log still replays if and only if the run is READY, or ACTION_PENDING on the named event, with room; then the policy's decision is the next event, and it is denied, held at its gate or executed, following the uninterrupted run at every stop; the reported outcome is the durable one |
| Runtime.AuthorizedToolRuntime.LoadActiveRequest | src/agent_runtime_lab/authorized_tool_runtime.py:857-871 | in a tool phase the request in force |
| Runtime.AuthorizedToolRuntime.LoadActiveProposal | src/agent_runtime_lab/authorized_tool_runtime.py:887-914 | the newest proposal of the waiting gate, unless its stored reasons are malformed |
| Runtime.AuthorizedToolRuntime.ResolveGate | src/agent_runtime_lab/authorized_tool_runtime.py:233-290 | only a matching reference under a standing policy changes anything: rejection fails the run with the given reason, approval executes the stored request, whoever submitted it |
| Runtime.AuthorizedToolRuntime.SubmitGateAnswer | src/agent_runtime_lab/authorized_tool_runtime.py:292-375 | one answer is one attempt at the waiting proposal; pass executes the stored request, retry leaves the same gate waiting for the next attempt, block and the last retry fail the run with their reason |
| Runtime.AuthorizedToolRuntime.ReviseGate | src/agent_runtime_lab/authorized_tool_runtime.py:377-411 | the gate then waits for the new proposal under the current policy's terms, afresh, and no longer for the old reference; the log still replays if and only if the digest is new, which it is where the runtime opened the gate |
| Runtime.AuthorizedToolRuntime.Recover | src/agent_runtime_lab/authorized_tool_runtime.py:413-428 | an approved or started effect is continued along the uninterrupted run; an open unsafe effect is refused; any other status is an error that changes nothing |
| Runtime.AuthorizedToolRuntime.CreateSnapshot | src/agent_runtime_lab/authorized_tool_runtime.py:444-452 | a snapshot is saved for exactly the runs that replay, and it is the snapshot of that replay |
| AdapterCalls.ModelAdapter.NextAction | src/agent_runtime_lab/model_adapter.py:180-188 | one call, witnessed with its run and turn |
| AdapterCalls.CallIsNew | src/agent_runtime_lab/fake_agent.py:387-402 | the call that follows a durable intent is for a turn never asked about before |
| AdapterCalls.CallsWithinBudget | src/agent_runtime_lab/fake_agent.py:355-417 | over the whole life of a run at most one adapter call per turn and at most max_steps calls |
| LoopEvidence.VerdictReadsBack | src/agent_runtime_lab/authorized_tool_runtime.py:629-656 | a verdict read off its event is the verdict that was recorded |
| LoopEvidence.CompletionReadsBack | src/agent_runtime_lab/authorized_tool_runtime.py:658-709 | a decision read off its event is the decision that was recorded |
| LoopEvidence.CallTold | src/agent_runtime_lab/fake_agent.py:438-469 | over one submitted call the log carries one request, whose result tells the decision, the state that the call came to, and the proposal or the stored receipt |
| LoopEvidence.RecountsChain | src/agent_runtime_lab/fake_agent.py:342-487 | what two stretches of the loop recount in log order, their concatenation recounts of both together |
| LoopSteps.RequestIsNext | src/agent_runtime_lab/fake_agent.py:438-469 | submitting the proposed call is the next step of the uninterrupted run |
| LoopSteps.CompletionStep | src/agent_runtime_lab/fake_agent.py:419-436 | judging the pending answer is a step of the run and, on the log's own observation, the next one, unless the evidence is about another text; then the run ends there |
| LoopSteps.VerificationStep | src/agent_runtime_lab/fake_agent.py:470-478 | verifying the receipt of the request in force is a step of the run if the verdict speaks, and given the input that the log rebuilds the next one; if it does not speak, the log no longer replays |
| LoopSteps.FollowersSpeak | src/agent_runtime_lab/domain/reducer.py:486-493 | a log that replays never ends in a failed verification without a reason |
| AgentLoop.ModelDrivenAgent.RequestAction | src/agent_runtime_lab/fake_agent.py:376-416 | from READY: intent, one adapter call, durable action, along the uninterrupted run; or the run has failed; the action that waits then is the one proposed last in the log |
| AgentLoop.ModelDrivenAgent.JudgeAnswer | src/agent_runtime_lab/fake_agent.py:419-436 | a final answer is decided and consumes the turn; the decision reported is the one in the log |
| AgentLoop.ModelDrivenAgent.DispatchCall | src/agent_runtime_lab/fake_agent.py:438-487 | a tool call ends at a gate, in failure, or verified, and a passed verification consumes the turn; its result and verdict are those that the log and the stored receipt hold; a verdict without a reason leaves a log that no longer replays |
| AgentLoop.ModelDrivenAgent.VerifyStep | src/agent_runtime_lab/fake_agent.py:470-478 | the receipt of the request in force is verified on the given input and the result persisted: a verdict that speaks keeps the run and, on the input that the log rebuilds, follows the uninterrupted run; one that does not breaks the log behind it |
| AgentLoop.ModelDrivenAgent.ContinueLoop | src/agent_runtime_lab/fake_agent.py:342-487 | the loop ends where the uninterrupted run ends, reports the durable status and accounts for every turn and action; behind what it was handed, its evidence is, in the order of the log, the action that waited and those proposed, the verdicts and decisions persisted, and for each request the result with its stored receipt; with a budget it terminates within 7 * (max_steps - turn) + 1 events; a run found in MODEL_PENDING is failed instead; only a verdict without a reason leaves a log that no longer replays |
| AgentLoop.ModelDrivenAgent.RunLoop | src/agent_runtime_lab/fake_agent.py:261-296 | the same from READY, MODEL_PENDING and ACTION_PENDING with a budget, with nothing handed over: a pending action comes first; any other run is refused unchanged |
| AgentLoop.ModelDrivenAgent.ResumeLoop | src/agent_runtime_lab/fake_agent.py:298-340 | a verifying run, with or without a budget, is verified from durable evidence and continued: the recovered action and its verdict come first, and the recovered receipt is the stored one of the request that was in force; any other run is refused unchanged |
| AgentLoop.ModelDrivenAgent.Restart | src/agent_runtime_lab/fake_agent.py:261-340 | crash equivalence: a restart that is not itself stopped leaves exactly the log, state and effects of the uninterrupted run, if and only if the run was not stuck; one that is stopped has only followed it; a run in any other status is left alone; a turn begun on another observation is taken up as safely, without the claim of equality |
| AgentLoop.ModelDrivenAgent.KeepRestarting | src/agent_runtime_lab/fake_agent.py:261-340 | restarted as often as it is stopped, up to a given number of times, a run is found on its uninterrupted run each time, and has the same end if and only if it was not stuck when it was last found |
| AgentLoop.UnknownIsNotFinished | src/agent_runtime_lab/fake_agent.py:357-369 | failing a run in MODEL_PENDING never yields the uninterrupted run |
| Histories.LifecycleKeepsInv | src/agent_runtime_lab/domain/reducer.py:80-113 | creation, start, pause, resumption and cancellation by the application keep a run's promises |
| Histories.LifecycleDecides | src/agent_runtime_lab/domain/reducer.py:80-113 | creation is taken as the first event only, start, pause and resumption in one status each, cancellation anywhere before the end; nothing changes but the status, the budget that creation fixes and what cancellation closes |
| Histories.PauseIsInvisible | src/agent_runtime_lab/domain/reducer.py:107-113 | a pause that is ended leaves the run as it was, but for the two events in its books |
| Histories.LifecycleServes | src/agent_runtime_lab/persistence/sqlite_store.py:117-192 | an application event at the next sequence leaves a run that keeps its promises or no longer replays, and it replays if the transition exists |
| Histories.Perform | src/agent_runtime_lab/authorized_tool_runtime.py:136-164 | one process, for any operation with any arguments, under any configuration, stopped anywhere, keeps the ledgers and the promises of every run, touches one run only, and leaves its log replayable if the operation fitted |
| Histories.Live | src/agent_runtime_lab/durable_tool_executor.py:85-167 | over every history of operations, stops and snapshot faults: unsafe tools are invoked at most once per effect, each invocation matches the latest request of a log in TOOL_RUNNING, each receipt tells what the last invocation of its effect did, evidence exists in VERIFYING, the adapter is called at most once per turn and within the budget, and a run replays as long as each operation on it fitted |
| Histories.SafetyOf | src/agent_runtime_lab/fake_agent.py:298-487 | what the invariant of the database means for a reader of it |
| Trace.BuildRunTrace | src/agent_runtime_lab/trace.py:150-193 | the trace has one record per delivery with the statuses that replay has before and after it and the digests of event and payload, and the counts and duration; it fails exactly where replay fails |
| Trace.RecordsFormChain | src/agent_runtime_lab/trace.py:154-171 | the records form a chain from NEW to the final status, and each link is a move of the state machine |
| Trace.MetricsMeasure | src/agent_runtime_lab/trace.py:173-187 | each count is the number of deliveries of that kind, and the duration the whole milliseconds from the first delivery to the last, or nothing where the clock went back |
| Trace.MetricsAgree | src/agent_runtime_lab/trace.py:177-187 | runtime steps are completion decisions plus step verifications, and the counts balance with the run |
| Trace.RedeliveryInTrace | src/agent_runtime_lab/trace.py:150-193 | each redelivery adds one to the event count and to the count of its type, and a record in which nothing moves; the other records, the final status and the steps are those of the first occurrences, and so is the duration unless a redelivery came last |

## Left out

- Concurrent processes on one run: guards read the state before the append reads the sequence number, and the
  executor's load and save of an intent are two transactions, so the claims are for one process at a time.
- `run_tool_turn`, `run_completion_turn` and the legacy `FakeAgent`: thin callers of `submit`, `record_step_verification`
  and `record_completion`, whose contracts cover them.
- AgentLoop.ModelDrivenAgent.Restart: the dispatch by status is a supervisor's, put together from the three recovery
  operations; the repository leaves it to its callers.
- AgentLoop.ModelDrivenAgent.ContinueLoop: without a budget the loop need not end; it is then followed for any finite number
  of turns, after which its process is taken to stop.
- AgentLoop.ModelDrivenAgent.RunLoop: like the other methods of the agent, it is claimed for runs that keep the runtime's
  promises if they replay (`Kept`). Every operation of a history establishes that; events of the runtime's own types that an
  application writes past the runtime need not.
- Histories.Live: application events are the five lifecycle events, under identities that do not imitate the runtime's own;
  the registry of retry-safe tools is the same for all processes.
- EventStores.EventStore.DamageSnapshot: at most one damaged column per saved row; two consistent damages can forge a row.
- ToolEffects.DurableToolExecutor.Execute: a tool whose output is no JSON value; the executor then raises, and leaves the
  durable facts of a stop right after the invocation.
- Snapshots.CodecRoundTrip: the decoder of the model refuses documents whose optional fields have another JSON type,
  which the source would load into a state that no event produces.
- Trace.BuildRunTrace: redacted metadata and the trace's own JSON and digest are not modelled, and the duration is computed
  exactly where the source goes through floating point.
- Protocol.RequestReadsBack: rebuilding a request does not validate the JSON of its arguments or the type of a stored
  event reference.
- SQLite: SQL text, triggers, schema creation and the receipt-constraint migration; tables are maps and sequences, and
  a method of a store is one transaction.
- JSON text, canonical encoding and date formatting; SHA-256 is an injective constructor.
- Policy, risk, gate evaluation and the verifiers, as arbitrary functions of what they are given; a gate evaluator,
  verifier or expectation resolver that raises.
- The OpenAI-compatible adapter, restricted file tools and workspace boundary: network and filesystem.
- Timestamps: a function of the sequence number, so that equal logs are equal in them too.
- Stops inside read-only operations: the same as a stop before them.
