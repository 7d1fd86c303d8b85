# OfferAgent harness: verified model

A Dafny model of the core of OfferAgent's harness: one agent loop and the
bookkeeping that must survive cancellation, retries and crashes. `dafny verify
dfyconfig.toml` checks all of it.

| files | what they model |
|---|---|
| `RunStates`, `RunLog`, `ToolObserver`, `Termination`, `AgentLoop` | the run's immutable state and its tool-call ledger, the committed events, the observer that advances a second copy of the state during a tool batch, and the loop itself, under an arbitrary world of planners, kernels, steering and cancellation |
| `Budgets` | the ledger of seven limits with reservations, adoption after a restart, and checkpoints |
| `StructuredStream`, `ModelPlanner`, `PlannerInLoop` | the acceptor of a model stream against a grammar, and planning with one repair and one overflow retry |
| `EventStore`, `EntityStore`, `EntityListing`, `InvocationJournal`, `UnitOfWork` | the append-only log, revisioned entities and scans of them by pages, the three-state journal, and interleaved transactions over all three |
| `ContextWindow` | the greedy choice of context under a budget |
| `PluginInstall`, `ArtifactStore` | file protocols in which every operation may fail or be followed by a crash |
| `CanonicalNumbers`, `CanonicalJson`, `Documents`, `HashTexts`, `DocumentBoundary` | canonical JSON (RFC 8785), the parser's page loop, and the document boundary written in that JSON |
| `HookTrust` | installations and confirmations of Hooks by services that share a store |
| `Citation`, `DependencyClosure` | the longest-common-run program and the dependency worklist |
| `Sorting`, `Outcomes` | what the others share |

Code that changes things step by step is a class or a method with loops, proved
against functions of the old state; frozen values are datatypes and functions.
Where the outside world decides (a planner's answer, a failing rename, a lost
commit, the size of a short read) the decision is a parameter, so every theorem
holds for all of them.

## Findings

Some promises hold only under a condition, which the model states and proves:

- `adopt_reservation` tests an adoption against everything reserved, live
  handles included. All handles can be settled exactly when adoptions stayed
  within the restored remainder (`SettlesIffRemainderRemains`).
- A run has no terminal event of its own exactly when the loop failure of
  another run passes through it. It cannot when no await, planner or kernel
  raises one (`AgentRun.Run`); it does when the planner does
  (`PlannerPassesFailureOn`).
- A plugin installation does not bring the old tree back after an interruption
  between a rename and the flag that records it, or once its backup is damaged
  (`RecoversIff`); the settings survive even then. When the rollback says so is
  exact too (`Install`): the interruption while the old tree is set aside is
  silent (`InterruptedSetAside`), the one while a new tree is activated is
  silent only if there was no old tree, and a damaged backup is silent when the
  rollback's own steps succeed (`SilentLossIff`).
- A Hook may stay in force although a later layer dropped it: a service whose
  call is cancelled after its put, or beside which another service installs,
  keeps its older record (`CancelledInstallKeepsCommand`). What is in force
  stands in the whole history exactly when the stored row still backs it
  (`StandsIffStored`), in particular with a cache that is not behind
  (`CurrentIsTrusted`).
- A task cancellation that is delivered inside a terminal commit of the try
  block makes the handler commit a second terminal event: inside the commit of
  `turn.completed` (`SecondEventAfterCompletion`), and inside that of
  `turn.failed` when the budget has no model round left
  (`SecondEventAfterExhaustion`). Inside any other commit of the try block it
  does not (`StruckAtAnyCommit`).
- An artifact request that is lost after its metadata file was linked makes
  every other request for that identifier fail as corrupt (`VerdictIsOutcome`,
  `OrphanRefusesOthers`).
- A document whose coordinates are integers between 2^53 and 10^21 is encoded
  but refused when it is decoded (`LargeCoordinateIsRefused`); a response comes
  back whole exactly when its counts are safe integers and no coordinate is
  such an integer (`ResponseReturnsIff`).
- The response decoder lets `int()` read the digits of a hash, so it accepts a
  parser fingerprint such as `sha256:0x` with 62 digits
  (`LooseFingerprintIsAccepted`). What it accepts is a proper document exactly
  when the fingerprint, and without pages the source hash, is proper
  (`AcceptedResponseIsDocument`).
- The cost of the last usage snapshot bounds every earlier one after all:
  currencies must agree, and a currency is present exactly with a cost
  (`ReturnedUsageBoundsAll`).

## Model

| member | source | states |
|---|---|---|
| `RunStates.AcceptConserves` | `packages/offeragent-harness/src/offeragent_harness/agent/state.py:322-351` | Accepting a batch keeps the tool-call ledger conserved: result IDs distinct, disjoint from pending IDs, together exactly the bound IDs, and counted by the tool-call counter. |
| `RunStates.RecordConserves` | `packages/offeragent-harness/src/offeragent_harness/agent/state.py:281-320` | Recording a result moves one ID from pending to answered and keeps the ledger conserved. |
| `RunStates.ReplaceConserves` | `packages/offeragent-harness/src/offeragent_harness/agent/loop.py:386-402` | A Hook replacement of a pending call keeps the ledger conserved. |
| `RunStates.RestoreKeepsResults` | `packages/offeragent-harness/src/offeragent_harness/agent/loop.py:549-560` | Restoring the batch order neither drops, repeats nor alters a result. |
| `RunStates.LedgerConserved` | `packages/offeragent-harness/src/offeragent_harness/agent/state.py:281-351` | Every history of accepts, replacements, results and reorderings, refused ones included, keeps the ledger conserved. |
| `RunStates.RestoreBatch` | `packages/offeragent-harness/src/offeragent_harness/agent/loop.py:549-560` | When no call is pending, restoring succeeds and lists everything before the batch and then the batch in acceptance order. |
| `RunStates.BatchOrder` | `packages/offeragent-harness/src/offeragent_harness/agent/loop.py:1006-1017` | A whole batch, its results arriving in any order, ends with the results in acceptance order and the same set of results. |
| `Termination.EvaluateResponseReadiness` | `packages/offeragent-harness/src/offeragent_harness/agent/termination.py:14-27` | A run may respond exactly when nothing is pending and the write obligation is satisfied; every blocker is listed once. |
| `RunLog.SatisfiedMeansWritten` | `packages/offeragent-harness/src/offeragent_harness/agent/state.py:139-189` | If the log or the inherited obligation demands a write outcome and the obligation is satisfied, some effectful tool succeeded: in this run, or among the outcomes it inherited. |
| `RunLog.PathAppend` | `packages/offeragent-harness/src/offeragent_harness/agent/state.py:46-111` | A committed move that the transition table allows extends a path of committed phases. |
| `ToolObserver.CommitPhase` | `packages/offeragent-harness/src/offeragent_harness/agent/loop.py:538-546` | A phase move is committed exactly when the table allows it; otherwise nothing is committed. |
| `ToolObserver.LoopObserver.OnCallReplaced` | `packages/offeragent-harness/src/offeragent_harness/agent/loop.py:386-402` | The replacement callback changes only the call it names, and commits nothing. |
| `ToolObserver.LoopObserver.OnRequired` | `packages/offeragent-harness/src/offeragent_harness/agent/loop.py:404-427` | An approval request moves to the approval phase first and commits the request only for exactly one pending call. |
| `ToolObserver.LoopObserver.OnResolved` | `packages/offeragent-harness/src/offeragent_harness/agent/loop.py:429-473` | Resolving an approval closes that approval, and only one that was open. |
| `ToolObserver.LoopObserver.OnExecutionStarted` | `packages/offeragent-harness/src/offeragent_harness/agent/loop.py:475-500` | A start is committed once per call, never while an approval is open, and only for the call as it is pending. |
| `ToolObserver.LoopObserver.OnResultAvailable` | `packages/offeragent-harness/src/offeragent_harness/agent/loop.py:502-526` | A result is committed after the move to the recording phase, for a pending call with the same ID. |
| `ToolObserver.ObserveIsOrderly` | `packages/offeragent-harness/src/offeragent_harness/agent/loop.py:379-530` | Each callback extends the committed phases along allowed batch phases, raising or not. |
| `ToolObserver.ObserveKeepsBatch` | `packages/offeragent-harness/src/offeragent_harness/agent/loop.py:379-530` | Every callback, raising or not, keeps the invariant of an open batch: conserved ledger, results only for the batch, phases on the log. |
| `ToolObserver.ObserveObligation` | `packages/offeragent-harness/src/offeragent_harness/agent/state.py:169-189` | The write obligation changes only by a committed tool result. |
| `AgentLoop.AgentRun.Run` | `packages/offeragent-harness/src/offeragent_harness/agent/loop.py:838-1029` | For every planner, kernel, steering and cancellation point: the phases form a path in the table, exactly one terminal event is committed and it is last, unless another run's loop failure passes through, which cannot happen when no collaborator raises one; a completed run has nothing pending, has a successful write if one was demanded, and its deltas join contiguously to the final text; rounds and calls stay within what the budget used, and that within its limits. |
| `AgentLoop.CancelledInsideCommit` | `packages/offeragent-harness/src/offeragent_harness/agent/loop.py:1018-1021` | A task cancellation delivered inside a commit of the try block, after it landed: with the interruption that the handler commits from the loop's older state, the log is a path with one terminal event, exactly unless that commit was itself terminal. |
| `AgentLoop.FailedInsideCommit` | `packages/offeragent-harness/src/offeragent_harness/agent/loop.py:1024-1029` | The same for an error raised there, with the failure that the handler commits. |
| `AgentLoop.StruckAtAnyCommit` | `packages/offeragent-harness/src/offeragent_harness/agent/loop.py:875-1029` | Both, for every commit of the try block of every run, from the phase that the loop's own state has at that commit; `AgentRun.Run` ensures the trail of these phases. |
| `AgentLoop.SecondEventAfterCompletion` | `packages/offeragent-harness/src/offeragent_harness/agent/loop.py:650-662` | A run at planning that is cancelled inside the commit of its completion: two terminal events, and no path. |
| `AgentLoop.SecondEventAfterExhaustion` | `packages/offeragent-harness/src/offeragent_harness/agent/loop.py:910-913` | The same inside the commit of its failure when no model round is left. |
| `AgentLoop.PlannerPassesFailureOn` | `packages/offeragent-harness/src/offeragent_harness/agent/loop.py:1022-1023` | A run whose planner raises the loop failure of another run in the first round: it is passed on, and nothing terminal is committed. |
| `RunLog.PrefixIsLawful` | `packages/offeragent-harness/src/offeragent_harness/agent/loop.py:703-834` | A run cut short anywhere, in a handler too, leaves a path with at most one terminal event. |
| `PlannerInLoop.PlannersAreHonest` | `packages/offeragent-harness/src/offeragent_harness/agent/model_planner.py:418-511` | A world whose plans are outcomes of the model-backed planner meets what the loop's accounting of rounds assumes of a planner. |
| `AgentLoop.AgentRun.Drive` | `packages/offeragent-harness/src/offeragent_harness/agent/loop.py:875-1029` | The try statement and its handlers establish what every run guarantees, fresh or recovered. |
| `AgentLoop.AgentRun.Begin` | `packages/offeragent-harness/src/offeragent_harness/agent/loop.py:876-904` | Up to the first planning phase the run is at rest in planning, or has raised with the log at or ahead of the loop's state. |
| `AgentLoop.AgentRun.Rounds` | `packages/offeragent-harness/src/offeragent_harness/agent/loop.py:906-1017` | The loop terminates for every planner, since every turn spends a model round, and ends lawfully or with an exception. |
| `AgentLoop.AgentRun.Round` | `packages/offeragent-harness/src/offeragent_harness/agent/loop.py:906-1017` | One turn returns to planning with the batch closed, ends the run, or raises; a planner in flight leaves its attempts to be recorded. |
| `AgentLoop.AgentRun.Act` | `packages/offeragent-harness/src/offeragent_harness/agent/loop.py:937-973` | A step decided before newly accepted steering is discarded; otherwise it is acted on. |
| `AgentLoop.AgentRun.Decide` | `packages/offeragent-harness/src/offeragent_harness/agent/loop.py:946-973` | A demanded write outcome is committed before the step is acted on, and a response is given only if nothing blocks it. |
| `AgentLoop.AgentRun.RunCalls` | `packages/offeragent-harness/src/offeragent_harness/agent/loop.py:975-1017` | Accepting and executing a batch returns to planning with results in acceptance order, or raises with the loop's own older state behind the log. |
| `AgentLoop.AgentRun.FinishBatch` | `packages/offeragent-harness/src/offeragent_harness/agent/loop.py:1009-1017` | Order restored and planning resumed only when every result of the batch was observed. |
| `AgentLoop.AgentRun.CompleteWithResponse` | `packages/offeragent-harness/src/offeragent_harness/agent/loop.py:607-662` | The deltas concatenate, at contiguous offsets, to the response, which the terminal event carries; a stop between deltas leaves no completion. |
| `AgentLoop.AgentRun.Stream` | `packages/offeragent-harness/src/offeragent_harness/agent/loop.py:607-662` | Chunks of the response are committed at contiguous offsets until the end or an interruption. |
| `AgentLoop.AgentRun.Handle` | `packages/offeragent-harness/src/offeragent_harness/agent/loop.py:1018-1029` | A cancellation ends in the phase its code prescribes, a task cancellation in INTERRUPTED, any other error in FAILED after the planner's attempts were recorded; another run's failure passes through. |
| `AgentLoop.AgentRun.CancelRun` | `packages/offeragent-harness/src/offeragent_harness/agent/loop.py:703-772` | From every phase the loop can be in, cancellation commits one terminal event, through the cancelling phase where the table needs it. |
| `AgentLoop.AgentRun.FailRun` | `packages/offeragent-harness/src/offeragent_harness/agent/loop.py:812-834` | From every phase the loop can be in, failure commits one terminal event. |
| `AgentLoop.AgentRun.ResumeBatch` | `packages/offeragent-harness/src/offeragent_harness/agent/loop.py:563-604` | A recovered batch is finished with its results in acceptance order before planning, whatever its phase at the crash. |
| `AgentLoop.AgentRun.ApplyRunControls` | `packages/offeragent-harness/src/offeragent_harness/agent/loop.py:88-113` | Steering is applied message by message without leaving the phase or touching the ledger. |
| `AgentLoop.AgentRun.RecordPlanningAttempts` | `packages/offeragent-harness/src/offeragent_harness/agent/loop.py:665-700` | Every audited attempt is committed and counted as a model round within what the budget charged. |
| `Budgets.BudgetLedger.Consume` | `packages/offeragent-harness/src/offeragent_harness/agent/budgets.py:164-169` | A charge is accepted exactly when used, reserved and the charge together fit every limit, and then adds exactly the charge. |
| `Budgets.BudgetLedger.Reserve` | `packages/offeragent-harness/src/offeragent_harness/agent/budgets.py:171-176` | A reservation is accepted exactly when it fits beside what is used and reserved, and adds exactly its amount. |
| `Budgets.BudgetLedger.AdoptReservation` | `packages/offeragent-harness/src/offeragent_harness/agent/budgets.py:178-186` | Adoption is tested against everything reserved less what was adopted before, and adds to what was adopted. |
| `Budgets.BudgetLedger.SettleReservation` | `packages/offeragent-harness/src/offeragent_harness/agent/budgets.py:194-206` | Settling moves the actual from reserved to used; the whole book afterwards is known also where a later check fails and earlier assignments stay. |
| `Budgets.RaisingSettlementChangesNothing` | `packages/offeragent-harness/src/offeragent_harness/agent/budgets.py:194-206` | In a balanced ledger a settlement of an open handle can fail only at its first check, so a call that raises has changed nothing. |
| `Budgets.BudgetReservation.Consume` | `packages/offeragent-harness/src/offeragent_harness/agent/budgets.py:107-113` | A handle settles once, with an actual within its reservation; a closed handle raises. |
| `Budgets.HistoryBalanced` | `packages/offeragent-harness/src/offeragent_harness/agent/budgets.py:136-206` | In every history used plus reserved stay within all seven limits, used is the sum of charges and settled actuals, and reserved the sum of open handles plus the unadopted remainder. |
| `Budgets.PrudentKeepsRemainder` | `packages/offeragent-harness/src/offeragent_harness/agent/budgets.py:178-206` | While each adoption stays within the restored remainder, the remainder never goes negative. |
| `Budgets.SettleNeverRaises` | `packages/offeragent-harness/src/offeragent_harness/agent/budgets.py:194-206` | With a non-negative remainder, settling an open handle with a fitting actual never raises. |
| `Budgets.SettlesIffRemainderRemains` | `packages/offeragent-harness/src/offeragent_harness/agent/budgets.py:178-206` | All handles can be released exactly when the restored remainder is non-negative. |
| `Budgets.OverAdoptionBreaksSettling` | `packages/offeragent-harness/src/offeragent_harness/agent/budgets.py:170-206` | An accepted adoption of more than what was restored and not yet adopted leaves a ledger that cannot settle everything it handed out. |
| `Budgets.OverAdoptionIsAccepted` | `packages/offeragent-harness/src/offeragent_harness/agent/budgets.py:182-184` | Such adoptions happen: after any hold on a fresh ledger, adopting the live amount is accepted although nothing was restored. |
| `Budgets.UsedGrowsWithinLimits` | `packages/offeragent-harness/src/offeragent_harness/agent/budgets.py:164-206` | A step that keeps the remainder only grows what is used, within the limits. |
| `Budgets.CaptureRestore` | `packages/offeragent-harness/src/offeragent_harness/agent/budget_checkpoint.py:83-134` | A balanced ledger can be captured at any time from its start and restored to the same sums, balanced, with everything it can adopt also settleable. |
| `StructuredStream.CollectStructuredResponse` | `packages/offeragent-harness/src/offeragent_harness/agent/model_planner.py:673-765` | A stream is accepted exactly when it is well formed: numbered from one for this request, one STARTED first, one structured output, compatible usage, COMPLETED(stop) last; the output and last usage are returned. |
| `StructuredStream.ReadEvent` | `packages/offeragent-harness/src/offeragent_harness/agent/model_planner.py:673-765` | One event fails exactly when it offends against the protocol in the state reached. |
| `StructuredStream.OffenceIsFatal` | `packages/offeragent-harness/src/offeragent_harness/agent/model_planner.py:673-765` | A stream with an offending event is not well formed, however it continues. |
| `StructuredStream.ReturnedUsageBoundsAll` | `packages/offeragent-harness/src/offeragent_harness/agent/model_planner.py:768-782` | The usage returned bounds every reported snapshot, cost included. |
| `ModelPlanner.Planner.MakePlan` | `packages/offeragent-harness/src/offeragent_harness/agent/model_planner.py:418-462` | At most three requests, one repair and one overflow retry; a success carries a valid audit trail of exactly the requests sent and charges one round less than it sent; a failure explains itself and carries at most one attempt more than it charged. |
| `ModelPlanner.Planner.ExecuteWithOverflowRetry` | `packages/offeragent-harness/src/offeragent_harness/agent/model_planner.py:464-511` | An overflow is retried once with a reference projection when allowed and affordable, and reported only otherwise. |
| `ModelPlanner.Planner.ExecuteAttempt` | `packages/offeragent-harness/src/offeragent_harness/agent/model_planner.py:513-560` | One request, its usage charged, and one audit record with its outcome. |
| `ModelPlanner.TrailFromAudit` | `packages/offeragent-harness/src/offeragent_harness/agent/planner.py:65-80` | The audit trail of increasing requests ending in success passes the step's own validation. |
| `ModelPlanner.CombinedFinishes` | `packages/offeragent-harness/src/offeragent_harness/agent/model_planner.py:418-462` | The trail of a first execution followed by that of a repair is one trail of all requests. |
| `EventStore.EventTable.AppendEvents` | `packages/offeragent-harness/src/offeragent_harness/adapters/sqlite_stores.py:74-188` | The table after an append, and what it returns, are those of the specification: replay, refusal, or insertion. |
| `EventStore.HistorySound` | `packages/offeragent-harness/src/offeragent_harness/adapters/sqlite_stores.py:74-188` | Every history keeps each stream numbered from one without gaps, event IDs unique, keys unique per stream, and at most one terminal event, last. |
| `EventStore.RefusalChangesNothing` | `packages/offeragent-harness/src/offeragent_harness/adapters/sqlite_stores.py:74-188` | A refused append changes nothing. |
| `EventStore.ReplayReturnsStored` | `packages/offeragent-harness/src/offeragent_harness/adapters/sqlite_stores.py:74-130` | Appending a stored batch again, after any history and with any non-negative expected sequence, returns the stored events and changes nothing. |
| `EventStore.PageIsSlice` | `packages/offeragent-harness/src/offeragent_harness/adapters/sqlite_stores.py:191-206` | A page is the slice of the stream behind its cursor. |
| `EventStore.PagesConcatenate` | `packages/offeragent-harness/src/offeragent_harness/adapters/sqlite_stores.py:191-206` | Pages of any size concatenate to the stream. |
| `EntityStore.EntityTable.PutRow` | `packages/offeragent-harness/src/offeragent_harness/adapters/sqlite_stores.py:287-316` | A put is refused exactly on another revision, and otherwise returns the next revision. |
| `EntityStore.EntityIsItsWrites` | `packages/offeragent-harness/src/offeragent_harness/adapters/sqlite_stores.py:287-335` | An entity's revision counts its accepted writes since the last delete and its value is the last of them. |
| `EntityStore.NoLostUpdate` | `packages/offeragent-harness/src/offeragent_harness/adapters/sqlite_stores.py:287-316` | Two compare-and-swap writes on one revision are never both accepted without a delete between them. |
| `EntityStore.RevisionNamesOneValue` | `packages/offeragent-harness/src/offeragent_harness/adapters/sqlite_stores.py:287-316` | Without a delete between them, equal revisions mean equal values. |
| `EntityStore.RevisionsRestartAfterDelete` | `packages/offeragent-harness/src/offeragent_harness/adapters/sqlite_stores.py:287-335` | After a delete a revision can name a second value. |
| `EntityListing.PageIsNext` | `packages/offeragent-harness/src/offeragent_harness/adapters/sqlite_stores.py:246-284` | A page ascends, holds rows of the collection behind the cursor, and leaves out only what comes behind its own last identifier, if it is full. |
| `EntityListing.ScanEntities` | `packages/offeragent-harness/src/offeragent_harness/runtime/session_service.py:1757-1776` | While other writers change the collection between pages, the scan never fails its checks for order, progress and repetition, and lists every entity that lasts throughout, once; or it gives up beyond the limit. |
| `EntityListing.SteadyScan` | `packages/offeragent-harness/src/offeragent_harness/runtime/session_service.py:1757-1776` | Without other writers the scan gives up exactly on a collection beyond the limit, and otherwise lists exactly its rows. |
| `InvocationJournal.JournalTable.CompleteRow` | `packages/offeragent-harness/src/offeragent_harness/adapters/sqlite_stores.py:373-404` | Completion is refused or leaves the one record that every later completion returns. |
| `InvocationJournal.JournalEvolves` | `packages/offeragent-harness/src/offeragent_harness/adapters/sqlite_stores.py:346-431` | In every history a record keeps its request hash and start, its state only moves forward, and only completed records carry results. |
| `InvocationJournal.CompletedIsFinal` | `packages/offeragent-harness/src/offeragent_harness/adapters/sqlite_stores.py:373-404` | After a completion every later one is refused or returns that same record. |
| `InvocationJournal.KeyStaysBound` | `packages/offeragent-harness/src/offeragent_harness/adapters/sqlite_stores.py:346-431` | A known key refuses every other request, whatever happened in between. |
| `UnitOfWork.UnitOfWorkSession.Commit` | `packages/offeragent-harness/src/offeragent_harness/adapters/sqlite_stores.py:779-797` | A commit that takes effect makes the unit's view durable and marks it committed, also when its caller is cancelled meanwhile. |
| `UnitOfWork.UnitOfWorkSession.Leave` | `packages/offeragent-harness/src/offeragent_harness/adapters/sqlite_stores.py:739-748` | Leaving rolls an undecided unit back and never keeps the lock. |
| `UnitOfWork.AlwaysExclusive` | `packages/offeragent-harness/src/offeragent_harness/adapters/sqlite_stores.py:704-762` | In every interleaving the lock is held exactly by the unit that may still write, which sees the durable state with its own writes on top. |
| `UnitOfWork.CommittedIsSerial` | `packages/offeragent-harness/src/offeragent_harness/adapters/sqlite_stores.py:694-818` | In every interleaving of units and single writes the durable state is that of the committed transactions run one after the other in commit order. |
| `UnitOfWork.AllOrNothing` | `packages/offeragent-harness/src/offeragent_harness/adapters/sqlite_stores.py:779-818` | A unit is in the commit order exactly when marked committed, once, and with everything it executed. |
| `UnitOfWork.ReadsAreSerial` | `packages/offeragent-harness/src/offeragent_harness/adapters/sqlite_stores.py:759-797` | What a committed unit saw at any time is the serial state at its own place in the order with its writes so far. |
| `UnitOfWork.LeavingReleases` | `packages/offeragent-harness/src/offeragent_harness/adapters/sqlite_stores.py:739-748` | A unit that left holds no lock and changed nothing durable by leaving. |
| `UnitOfWork.StoresStaySound` | `packages/offeragent-harness/src/offeragent_harness/adapters/sqlite_stores.py:694-818` | The event log and the journal stay sound in every durable state and every view. |
| `ContextWindow.Build` | `packages/offeragent-harness/src/offeragent_harness/agent/context_manager.py:376-646` | The window is the assembled one, or an error when the base messages do not fit or the window's own validation fails. |
| `ContextWindow.Choose` | `packages/offeragent-harness/src/offeragent_harness/agent/context_manager.py:600-621` | The greedy loop selects, passes over and accounts as the recursive specification does. |
| `ContextWindow.FragmentScreening` | `packages/offeragent-harness/src/offeragent_harness/agent/context_manager.py:418-498` | A fragment is offered exactly when the policy allows it and some permitted form fits the item budget, and then in the first such form. |
| `ContextWindow.OfferedIsAllowed` | `packages/offeragent-harness/src/offeragent_harness/agent/context_manager.py:418-594` | No fragment or tool result beyond the policy, secret or unclassified, is ever offered. |
| `ContextWindow.SortIsGrouping` | `packages/offeragent-harness/src/offeragent_harness/agent/context_manager.py:601-601` | Sorting by priority and ordinal has exactly one result, the candidates grouped by priority. |
| `ContextWindow.LayerSortIsGrouping` | `packages/offeragent-harness/src/offeragent_harness/agent/context_manager.py:623-631` | Sorting what was selected by layer and ordinal has exactly one result, the selected candidates grouped by layer. |
| `ContextWindow.WindowIsPartition` | `packages/offeragent-harness/src/offeragent_harness/agent/context_manager.py:376-646` | Every source is included or omitted, exactly once. |
| `ContextWindow.WindowIsExact` | `packages/offeragent-harness/src/offeragent_harness/agent/context_manager.py:395-640` | Used bytes are the exact sum of all message sizes, and messages, bytes and tokens stay within the budget. |
| `ContextWindow.WindowIsMaximal` | `packages/offeragent-harness/src/offeragent_harness/agent/context_manager.py:600-621` | Nothing omitted for want of budget would fit the finished window. |
| `ContextWindow.CompactionIffRequiredOmitted` | `packages/offeragent-harness/src/offeragent_harness/agent/context_manager.py:418-645` | Compaction is asked for exactly when a required source was omitted. |
| `ContextWindow.OnlyClashesAreRefused` | `packages/offeragent-harness/src/offeragent_harness/agent/context_manager.py:192-208` | The window's validation fails only when two included contexts share an identifier. |
| `ContextWindow.DistinctSourcesNeverClash` | `packages/offeragent-harness/src/offeragent_harness/agent/context_manager.py:192-208` | Sources with distinct identifiers always give a valid window. |
| `ContextWindow.IncludedComeFromSources` | `packages/offeragent-harness/src/offeragent_harness/agent/context_manager.py:418-634` | Everything in the window was offered by a source. |
| `ContextWindow.LowerPrioritiesNeverMatter` | `packages/offeragent-harness/src/offeragent_harness/agent/context_manager.py:600-634` | Decisions on the priorities up to any level are those of a window built from these priorities alone. |
| `ContextWindow.OptionalContextNeverForcesCompaction` | `packages/offeragent-harness/src/offeragent_harness/agent/context_manager.py:600-645` | Optional context never decides whether compaction is asked for. |
| `PluginInstall.Install` | `packages/offeragent-harness/scripts/install_local_windows_plugin.py:35-80` | In every state the installation passes through the settings are in exactly one place; success installs the new tree with the old settings; for every set of failing steps it is said exactly whether the failure is reported as an incomplete rollback and, when the new tree differs from the old, whether the target is the old one again; the report names where the settings are. |
| `PluginInstall.StopRecovers` | `packages/offeragent-harness/scripts/install_local_windows_plugin.py:57-126` | After any stop, whatever fails in the rollback, the target is the old tree again exactly in the listed cases. |
| `PluginInstall.SilentLossIff` | `packages/offeragent-harness/scripts/install_local_windows_plugin.py:57-126` | A failure leaves another target behind without a report exactly after an unflagged rename, except an activation over an old tree, or after damage to the backup. |
| `PluginInstall.RecoversIff` | `packages/offeragent-harness/scripts/install_local_windows_plugin.py:83-126` | With every rollback step landing, exactly the recoverable failures recover; the others recover under no circumstances. |
| `PluginInstall.SilentLossOverAnyTree` | `packages/offeragent-harness/scripts/install_local_windows_plugin.py:63-65` | Over every old tree an interruption while it is set aside is such a silent loss. |
| `PluginInstall.InterruptedSetAside` | `packages/offeragent-harness/scripts/install_local_windows_plugin.py:63-76` | That run raises without a report, the target is gone, and the old tree waits in the backup with its settings. |
| `PluginInstall.TryInstall` | `packages/offeragent-harness/scripts/install_local_windows_plugin.py:57-74` | The try block stops in one of six known stages, decided by which operation failed, with the settings in one place throughout. |
| `PluginInstall.Rollback` | `packages/offeragent-harness/scripts/install_local_windows_plugin.py:83-126` | A rollback reports an error exactly when one of its steps fails, and leaves the target and the backup as its steps make them: restored if nothing is reported and nothing lapsed, never restored after a lapse or over a damaged backup. |
| `PluginInstall.BackedUpRollback` | `packages/offeragent-harness/scripts/install_local_windows_plugin.py:83-126` | After the old tree was set aside, rollback restores it when its renames succeed, and cannot after an unflagged rename or a damaged backup. |
| `PluginInstall.ReportNamesOnePlace` | `packages/offeragent-harness/scripts/install_local_windows_plugin.py:117-126` | The recovery report names exactly one place, the one that holds the settings. |
| `ArtifactStore.LocalArtifactStore.Put` | `packages/offeragent-harness/src/offeragent_harness/adapters/local_artifacts.py:137-165` | A put is refused unless metadata describe the content, and otherwise commits as specified, every intermediate disk state backed and extending the first. |
| `ArtifactStore.LocalArtifactStore.CommitStaged` | `packages/offeragent-harness/src/offeragent_harness/adapters/local_artifacts.py:300-385` | Links, rows and outcome are those of the specification at every point where a step may fail or be lost. |
| `ArtifactStore.HistoryIsSafe` | `packages/offeragent-harness/src/offeragent_harness/adapters/local_artifacts.py:300-385` | Through every history of calls that may be lost at any step, every visible row is backed by a matching file and object, and nothing is overwritten or removed. |
| `ArtifactStore.VerdictIsOutcome` | `packages/offeragent-harness/src/offeragent_harness/adapters/local_artifacts.py:300-385` | A call ends as its key, artifact and metadata file decide, or is lost; it finds corruption only where a lost call left a metadata file with other metadata. |
| `ArtifactStore.KeyStaysBound` | `packages/offeragent-harness/src/offeragent_harness/adapters/local_artifacts.py:320-345` | A key that stored a request answers that request alike and refuses every other, whatever happened since. |
| `ArtifactStore.FileReservesIdentifier` | `packages/offeragent-harness/src/offeragent_harness/adapters/local_artifacts.py:455-482` | Once its metadata file is linked, an artifact is only ever visible with that metadata and its content. |
| `ArtifactStore.IdenticalRetryConverges` | `packages/offeragent-harness/src/offeragent_harness/adapters/local_artifacts.py:300-385` | After any number of lost calls the identical call reaches the same disk and answer as if it had succeeded at once. |
| `ArtifactStore.OrphanRefusesOthers` | `packages/offeragent-harness/src/offeragent_harness/adapters/local_artifacts.py:455-482` | A lost request can leave an orphan that refuses every other request for its identifier. |
| `ArtifactStore.ReadRange` | `packages/offeragent-harness/src/offeragent_harness/adapters/local_artifacts.py:224-262` | Chunked reading of whatever is stored returns exactly the requested slice, in nonempty chunks of bounded size, fails exactly when the object ends too early, and refuses an offset beyond the declared length. |
| `ArtifactStore.BoundedDigest` | `packages/offeragent-harness/src/offeragent_harness/adapters/local_artifacts.py:632-660` | Hashing at most one byte beyond the declared length tells exactly whether the whole object is the declared content. |
| `ArtifactStore.Stage` | `packages/offeragent-harness/src/offeragent_harness/adapters/local_artifacts.py:167-218` | A stream is staged exactly when its total length is within the limit, and then whole. |
| `CanonicalNumbers.EncodeFloat` | `packages/offeragent-harness/src/offeragent_harness/foundation/canonical.py:41-71` | A finite float is written as the text of its decimal; others are refused. |
| `CanonicalNumbers.ReadKeepsValue` | `packages/offeragent-harness/src/offeragent_harness/foundation/canonical.py:41-56` | Stripping zeros yields a decimal without outer zeros that denotes exactly the digits and exponent read. |
| `CanonicalNumbers.FixedRangeIsPosition` | `packages/offeragent-harness/src/offeragent_harness/foundation/canonical.py:58-58` | The value thresholds 10^-6 and 10^21 are thresholds on the position of the decimal point. |
| `CanonicalNumbers.RenderIsEcmaScript` | `packages/offeragent-harness/src/offeragent_harness/foundation/canonical.py:58-71` | The text is the one that ECMAScript, and section 3.2.2.3 of RFC 8785, prescribe. |
| `CanonicalNumbers.RenderRoundTrip` | `packages/offeragent-harness/src/offeragent_harness/foundation/canonical.py:58-71` | Reading a rendered decimal gives it back, in fixed and scientific form. |
| `CanonicalNumbers.EqualDecimalsAreSame` | `packages/offeragent-harness/src/offeragent_harness/foundation/canonical.py:41-71` | Numerically equal decimals without outer zeros are the same. |
| `CanonicalNumbers.IntegersAreNumbers` | `packages/offeragent-harness/src/offeragent_harness/foundation/canonical.py:81-84` | An integer in the safe range is written like the float of its value. |
| `CanonicalNumbers.SameTextIffSameNumber` | `packages/offeragent-harness/src/offeragent_harness/foundation/canonical.py:41-84` | Two numbers have the same text exactly when they are numerically equal. |
| `CanonicalJson.KeyLessTotal` | `packages/offeragent-harness/src/offeragent_harness/foundation/canonical.py:97-97` | The order by UTF-16 code units is a strict total order on keys. |
| `CanonicalJson.CharsRoundTrip` | `packages/offeragent-harness/src/offeragent_harness/foundation/canonical.py:35-38` | Unescaping an escaped string gives it back. |
| `CanonicalJson.PrintParses` | `packages/offeragent-harness/src/offeragent_harness/foundation/canonical.py:74-110` | Parsing a printed normal value gives it back and leaves what followed. |
| `CanonicalJson.EncodePrintsNormal` | `packages/offeragent-harness/src/offeragent_harness/foundation/canonical.py:74-110` | Encoding prints the normal form of a value, and fails exactly for a number JSON cannot carry. |
| `CanonicalJson.NormalIffSame` | `packages/offeragent-harness/src/offeragent_harness/foundation/canonical.py:74-110` | Two values have one normal form exactly when they are the same up to member order and numeric equality. |
| `CanonicalJson.SameTextIffSameValue` | `packages/offeragent-harness/src/offeragent_harness/foundation/canonical.py:16-110` | Two values have the same canonical text exactly when they are the same value. |
| `Documents.ParsePages` | `packages/offeragent-harness/src/offeragent_harness/documents/parser.py:209-313` | Parsing succeeds exactly when every page can be made and every limit holds, of each page and of the joined text, and returns those pages. |
| `Documents.ParseOne` | `packages/offeragent-harness/src/offeragent_harness/documents/parser.py:460-500` | The running totals are the lengths of the joined text, in characters and bytes. |
| `Documents.RangeIsPage` | `packages/offeragent-harness/src/offeragent_harness/documents/models.py:208-221` | Slicing the encoded text at a page's byte range gives that page's text. |
| `Documents.PageRanges` | `packages/offeragent-harness/src/offeragent_harness/documents/models.py:208-221` | The loop writes the range of every page. |
| `Documents.CheckRanges` | `packages/offeragent-harness/src/offeragent_harness/documents/canonical.py:309-317` | Ranges read back are accepted exactly when they are the ranges of the texts. |
| `HashTexts.ProperIsHashText` | `packages/offeragent-harness/src/offeragent_harness/documents/canonical.py:527-535` | 64 lower-case hexadecimal digits pass the decoder's test of a hash. |
| `HashTexts.HashTextsThatAreNoHashes` | `packages/offeragent-harness/src/offeragent_harness/documents/canonical.py:527-535` | The test also passes texts in which int() reads a base prefix, a sign or a space. |
| `DocumentBoundary.ResultFromJson` | `packages/offeragent-harness/src/offeragent_harness/documents/canonical.py:254-326` | A result is read exactly when its fields, counts, text and ranges agree; what is accepted has valid pages, its own text and its own ranges, and is a proper document exactly when its fingerprint is a proper hash and, without pages, its source hash too. |
| `DocumentBoundary.AcceptedResponseIsDocument` | `packages/offeragent-harness/src/offeragent_harness/documents/canonical.py:130-161` | Whatever text the decoder accepts, it returns a request identity and pages with their own text and ranges: a proper document exactly when its hashes are proper. |
| `DocumentBoundary.PresentableIff` | `packages/offeragent-harness/src/offeragent_harness/documents/models.py:184-202` | A proper document is one that the decoder can return and whose fingerprint, and source hash if it has no pages, are proper. |
| `DocumentBoundary.LooseFingerprintIsAccepted` | `packages/offeragent-harness/src/offeragent_harness/documents/canonical.py:254-326` | Every fingerprint that only passes the decoder's test is accepted from a canonical response, in a document that is not proper. |
| `DocumentBoundary.LooseFingerprintExists` | `packages/offeragent-harness/src/offeragent_harness/documents/canonical.py:527-535` | `sha256:0x` with 62 zeros is such a fingerprint. |
| `DocumentBoundary.ResultIsRead` | `packages/offeragent-harness/src/offeragent_harness/documents/canonical.py:254-421` | Reading a written document gives back source, pages, text and ranges. |
| `DocumentBoundary.CanonicalRoundTrip` | `packages/offeragent-harness/src/offeragent_harness/documents/canonical.py:130-161` | Decoding what was encoded gives the value exactly when every number written out in digits is in the safe range. |
| `DocumentBoundary.ResponseRoundTrip` | `packages/offeragent-harness/src/offeragent_harness/documents/canonical.py:86-161` | A response that can be encoded is decoded to the same request, document, text and ranges, exactly when no coordinate is an integer beyond 2^53 - 1 below 10^21. |
| `DocumentBoundary.ResponseEncodesIff` | `packages/offeragent-harness/src/offeragent_harness/documents/canonical.py:86-128` | A response can be encoded exactly when the counts it writes out are safe integers. |
| `DocumentBoundary.ResponseReturnsIff` | `packages/offeragent-harness/src/offeragent_harness/documents/canonical.py:86-161` | A response comes back whole exactly when its counts are safe integers and no coordinate is a larger one. |
| `DocumentBoundary.LargeCoordinateIsRefused` | `packages/offeragent-harness/src/offeragent_harness/documents/canonical.py:86-161` | For every integer coordinate beyond 2^53 - 1 a one-page document with it is proper, is encoded, and is refused by the decoder. |
| `DocumentBoundary.LargeCoordinateExists` | `packages/offeragent-harness/src/offeragent_harness/foundation/canonical.py:41-56` | 2^53 is such a coordinate. |
| `HookTrust.CommandConfirmedIff` | `packages/offeragent-harness/src/offeragent_harness/hooks/state.py:463-476` | In every history a workspace command is confirmed exactly when a confirmation named its exact definition and every layer installed since kept it. |
| `HookTrust.LayerConfirmedIff` | `packages/offeragent-harness/src/offeragent_harness/hooks/state.py:246-324` | In every history a user or session layer is confirmed exactly when its content was confirmed after its last installation. |
| `HookTrust.EffectiveWorkspaceHooks` | `packages/offeragent-harness/src/offeragent_harness/hooks/state.py:363-405` | The Hooks in force from a workspace layer are its builtins and the commands that stand. |
| `HookTrust.FoldIsWellFormed` | `packages/offeragent-harness/src/offeragent_harness/hooks/state.py:53-76` | No permitted decision makes a record that its own validation refuses. |
| `HookTrust.HookStore.Put` | `packages/offeragent-harness/src/offeragent_harness/hooks/state.py:126-170` | A put changes exactly its own row, by its own decision, exactly when the row is at the expected revision and not this candidate already, and recovers a commit that raised after it took effect. |
| `HookTrust.HookService.InstallLayer` | `packages/offeragent-harness/src/offeragent_harness/hooks/state.py:246-290` | An installation is recorded exactly when it meets its conditions and the put lands; a cache that was not behind falls behind exactly when the call raises after its put. |
| `HookTrust.HookService.ConfirmWholeLayer` | `packages/offeragent-harness/src/offeragent_harness/hooks/state.py:292-324` | A confirmation is recorded exactly for the content of the cached layer at its latest revision; the cache falls behind exactly when the call raises after its put. |
| `HookTrust.HookService.ConfirmWorkspaceCommand` | `packages/offeragent-harness/src/offeragent_harness/hooks/state.py:326-361` | A command confirmation is recorded exactly for a definition in the cached layer at its latest revision; the cache falls behind exactly when the call raises after its put. |
| `HookTrust.HookService.EffectiveLayers` | `packages/offeragent-harness/src/offeragent_harness/hooks/state.py:363-405` | The layers in force are those of the four expected owners that trust allows; the signed layer is always among them. |
| `HookTrust.HookService.InForceIsTrusted` | `packages/offeragent-harness/src/offeragent_harness/hooks/state.py:363-405` | Whatever services, retries and cancellations did, what is in force stands on the decisions the service has seen. |
| `HookTrust.HookService.CurrentIsTrusted` | `packages/offeragent-harness/src/offeragent_harness/hooks/state.py:363-405` | With a cache that is not behind, what is in force stands in the whole history: a command was confirmed with its exact definition and kept by every layer installed since. |
| `HookTrust.HookService.StandsIffStored` | `packages/offeragent-harness/src/offeragent_harness/hooks/state.py:363-405` | Whatever the age of the cache, what is in force stands in the whole history exactly when the stored row still confirms that definition or that layer. |
| `HookTrust.CancelledInstallKeepsCommand` | `packages/offeragent-harness/src/offeragent_harness/hooks/state.py:276-289` | A run that shows the failure: an installation that drops a confirmed command is cancelled after its put, and the service keeps the command in force. |
| `HookTrust.CachesOnlyAge` | `packages/offeragent-harness/src/offeragent_harness/hooks/state.py:439-452` | A service's cache stays an earlier state of the rows whatever other services write. |
| `Citation.LongestContiguousMatch` | `packages/offeragent-harness/src/offeragent_harness/knowledge/citation.py:212-225` | The two-row program returns the greatest length of a run contiguous in both sequences. |
| `Citation.SpanSupport` | `packages/offeragent-harness/src/offeragent_harness/knowledge/citation.py:198-209` | The features are the longest whole span, the longest run and the best coverage of the spans. |
| `Citation.DirectSupport` | `packages/offeragent-harness/src/offeragent_harness/knowledge/citation.py:198-209` | Direct support means a span that occurs whole, is at most the longest run, and implies coverage one. |
| `Citation.SupportUnique` | `packages/offeragent-harness/src/offeragent_harness/knowledge/citation.py:176-209` | Spans and document determine the features. |
| `Citation.Rank` | `packages/offeragent-harness/src/offeragent_harness/knowledge/citation.py:87-143` | The ranking is a permutation of the candidates with their features, ordered when identifiers are distinct. |
| `Citation.RankingIgnoresOrder` | `packages/offeragent-harness/src/offeragent_harness/knowledge/citation.py:126-143` | A ranking does not depend on the order of retrieval. |
| `Citation.Deduplicate` | `packages/offeragent-harness/src/offeragent_harness/knowledge/citation.py:156-167` | Each nonempty span is kept once. |
| `DependencyClosure.RuntimeDistributionClosure` | `packages/offeragent-harness/scripts/runtime_sbom.py:37-103` | The worklist ends on every metadata, succeeds exactly when the roots are resolvable, and lists exactly the reachable distributions, once each, sorted. |
| `DependencyClosure.NothingPending` | `packages/offeragent-harness/scripts/runtime_sbom.py:65-103` | With nothing pending, the resolved distributions are the reachable ones. |
| `DependencyClosure.FinishedIsResolvable` | `packages/offeragent-harness/scripts/runtime_sbom.py:65-103` | When the worklist is empty every requirement in force is met, or there was none. |
| `DependencyClosure.RequireSatisfied` | `packages/offeragent-harness/scripts/runtime_sbom.py:141-148` | Requirements are satisfied exactly when none enables extras and each contains the version. |

## Left out

- `AgentLoop`: the methods run with commits that do not raise. A cancellation or an error that strikes inside a commit of the try block, after it landed, is covered for the committed phases and terminal events (`StruckAtAnyCommit`). Inside a commit of a handler, or when the usage payload of its terminal event raises, the run ends without the events that the handler had still to commit: its log is then a prefix of a modelled one, a path with at most one terminal event (`PrefixIsLawful`). A recorder that refuses a commit is not modelled.
- `AgentLoop`: the `previous` field of a phase event and state revisions, which may lag behind the log after a failure inside a batch.
- `AgentLoop`: prompts, hints and event payloads beyond those the properties speak of; a wall-clock test is an await that may raise.
- `AgentLoop`: a response counts as blank when it consists of spaces, tabs and line breaks; other Unicode spaces are not distinguished.
- UsedGrowsWithinLimits: assumes that an adoption stays within the restored remainder, because without it the ledger can adopt what it cannot settle (`OverAdoptionBreaksSettling`).
- `Budgets`: decimal rounding of costs (costs are exact), and durations and times other than whole numbers.
- `WriteObligation.require` with a reason that is present while nothing is required; a fresh run never is in that state.
- `ModelPlanner`: the contents of requests and messages, schema validation, and checkpoints inside the stream reader.
- `EntityStore`, `EntityListing`: the codecs of values; other scans of a collection, which differ in their page sizes and limits.
- `UnitOfWork`: a second cancellation while the cleanup of a cancelled entry is awaited, or while the shielded commit is awaited: the committed flag then stays unset although the data may be durable, and what `AllOrNothing` says of the flag does not hold for that unit. Also SQLite itself, which is an exclusive write lock with calls that may fail.
- `ContextWindow`: the contents of messages, which are sizes; the projection hash; control messages are not subject to the visibility policy in the source, nor here.
- `PluginInstall`: links, reparse points and the checks of the artifact's contents; a verification passes or fails.
- `ArtifactStore`: handle snapshots, links and damage done by other programs; SHA-256 is taken as injective; the size limit of metadata.
- `CanonicalJson`: lone surrogates, which are no characters of a Dafny string, circular values, and keys that are no strings.
- `DocumentBoundary`: error envelopes and requests; texts that are JSON but not canonical are refused without saying why; the bound on the size of an encoded response. `HashTexts` knows the decimal digits of Unicode 14.0.
- `Documents`: media detection, rasters and backends, which give a page's text and regions or refuse it.
- `HookTrust`: managed denials and the order in which Hooks run (`resolve_hook_plan`), argument patches, and what a command definition may contain; another service's write between the read and the transaction of one put.
- `Citation`: tokenisation and the extraction of quoted spans from a question.
- `DependencyClosure`: the grammar of requirements and markers, and the fingerprint.
- Configuration layers, catalogs, evaluation runners and the Obsidian plugin, which would add members of the same kinds.
